/** The mutable game state shared by the window callbacks, the renderer and the frame loop. */
module State {
  class GameState {
    var paused: bool
    var wireframe: bool
    /** Boxes spawned so far by the frame loop. */
    var noBoxes: int
    /** Boxes the user has asked for with left clicks. */
    var noUserIntendedBoxes: int
    var newObjectVelocity: real
    var newObjectScale: real
    var newObjectMass: real
    var movementSpeed: real

    /** The spawn throttle's invariant: the loop never spawns more boxes than were asked for. */
    ghost predicate Throttled()
      reads this`noBoxes, this`noUserIntendedBoxes
    {
      0 <= noBoxes <= noUserIntendedBoxes
    }

    /** The default member initialisers of the state record. */
    constructor ()
      ensures !paused && !wireframe
      ensures noBoxes == 0 && noUserIntendedBoxes == 0
      ensures newObjectVelocity == 25.0 && newObjectScale == 0.2 && newObjectMass == 0.3
      ensures movementSpeed == 2.5
      ensures Throttled()
    {
      paused, wireframe := false, false;
      noBoxes, noUserIntendedBoxes := 0, 0;
      newObjectVelocity, newObjectScale, newObjectMass := 25.0, 0.2, 0.3;
      movementSpeed := 2.5;
    }
  }
}
