/** A module-level id counter such as `nextId` or `nextEnemyId`: each new entity takes the next value. */
module Counters {
  class Counter {
    var next: nat

    constructor()
      ensures next == 0
    {
      next := 0;
    }

    /** Restart the numbering (`resetAmoebaIds()`). */
    method Reset()
      modifies this
      ensures next == 0
    {
      next := 0;
    }
  }
}
