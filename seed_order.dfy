/** How the units seeded at start-up (server/routes.ts) are ordered on the
    facility walkthrough page. */
module SeedOrder {
  import opened Numerals
  import Routes
  import Walkthrough

  /** A seeded unit sorts by its floor number. */
  lemma SeededLocationKey(d: Routes.Draw)
    requires d.floor < 3 && d.block < 4
    ensures Walkthrough.SortKey(Routes.SeedLocation(d)) == d.floor + 1
  {
    var suffix := ", Block " + [(65 + d.block) as char];
    assert Routes.SeedLocation(d) == "Floor " + Numeral(d.floor + 1) + suffix;
    Walkthrough.SortKeyOfNumeral("Floor ", d.floor + 1, suffix);
  }
}
