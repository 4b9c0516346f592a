module Progress {
  import opened Geometry
  import opened Types
  import opened Resources
  import opened Amoebas
  import opened Enemies
  import opened Vision
  import opened Worlds
  import opened Phases

  /**
   * The state after `k` turns of the action loop: the world is valid and has the values of
   * `ws[k]`, amoebas have only been appended, and the other lists are the same objects.
   */
  ghost predicate Acted(world: World, ws: seq<WorldValue>, amoebas0: seq<Amoeba>, foods0: seq<Food>,
                        enemies0: seq<Enemy>, poisons0: seq<Poison>, k: nat)
    reads world, world.amoebas, world.enemies, world.foods, world.poisons, world.amoebaIds
  {
    && world.Valid() && k < |ws| && world.Snapshot() == ws[k]
    && |amoebas0| <= |world.amoebas| && world.amoebas[..|amoebas0|] == amoebas0
    && world.foods == foods0 && world.enemies == enemies0 && world.poisons == poisons0
  }
}
