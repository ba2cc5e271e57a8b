/**
 * The city eligibility list (option `lv_cities`), a premium feature: the
 * Settings page's add, bulk-remove and remove handlers, and the eligibility
 * test the public form's city gate applies.
 */
module Cities {
  import opened Php
  import opened Positions

  /** A city and its eligibility ("eligible", "not_eligible", or any posted text). */
  datatype City = City(name: string, eligibility: string)

  /** The gate's test: some city record has exactly this name and is "eligible". */
  function Eligible(cities: seq<City>, name: string): (ok: bool)
    ensures ok <==> exists i :: 0 <= i < |cities| && cities[i].name == name && cities[i].eligibility == "eligible"
  {
    if cities == [] then false
    else (cities[0].name == name && cities[0].eligibility == "eligible") || Eligible(cities[1..], name)
  }

  /** Later additions never revoke an eligible city, and a listed city marked eligible passes. */
  lemma {:induction false} EligibleAppend(cities: seq<City>, c: City, name: string)
    ensures Eligible(cities, name) ==> Eligible(cities + [c], name)
    ensures Eligible(cities + [c], name) <==> Eligible(cities, name) || (c.name == name && c.eligibility == "eligible")
  {
    if Eligible(cities, name) {
      var i :| 0 <= i < |cities| && cities[i].name == name && cities[i].eligibility == "eligible";
      assert (cities + [c])[i] == cities[i];
    }
    if Eligible(cities + [c], name) && !(c.name == name && c.eligibility == "eligible") {
      var i :| 0 <= i < |cities + [c]| && (cities + [c])[i].name == name && (cities + [c])[i].eligibility == "eligible";
      assert i < |cities|;
      assert cities[i] == (cities + [c])[i];
    }
    if c.name == name && c.eligibility == "eligible" {
      assert (cities + [c])[|cities|] == c;
    }
  }

  class CityList {
    var cities: seq<City>

    constructor ()
      ensures cities == []
    {
      cities := [];
    }

    /** Adding a city: premium only, and only with a non-empty name. */
    method AddCity(premium: bool, name: string, eligibility: string) returns (added: bool)
      modifies this
      ensures added <==> premium && !Empty(name)
      ensures cities == if added then old(cities) + [City(name, eligibility)] else old(cities)
    {
      added := premium && !Empty(name);
      if added {
        cities := cities + [City(name, eligibility)];
      }
    }

    /**
     * Bulk removal: premium only and with at least one id; every in-range
     * position is removed and the rest renumbered; other ids are ignored.
     */
    method RemoveCities(premium: bool, ids: seq<int>) returns (removed: bool)
      modifies this
      ensures removed <==> premium && ids != []
      ensures cities == if removed then Without(old(cities), set x | x in ids) else old(cities)
    {
      removed := premium && ids != [];
      if removed {
        var gone: set<int> := {};
        var k := 0;
        while k < |ids|
          invariant 0 <= k <= |ids|
          invariant forall x :: x in gone <==> x in ids[..k] && 0 <= x < |cities|
        {
          assert ids[..k + 1] == ids[..k] + [ids[k]];
          if 0 <= ids[k] < |cities| {
            gone := gone + {ids[k]};
          }
          k := k + 1;
        }
        assert ids[..k] == ids;
        WithoutInRange(cities, gone, set x | x in ids);
        cities := Without(cities, gone);
      }
    }

    /** The single-remove link: premium only; removes one in-range position, otherwise nothing. */
    method RemoveCity(premium: bool, postEmpty: bool, id: int) returns (removed: bool)
      modifies this
      ensures removed <==> premium && postEmpty && 0 <= id < |old(cities)|
      ensures cities == if removed then old(cities)[..id] + old(cities)[id + 1..] else old(cities)
    {
      removed := premium && postEmpty && 0 <= id < |cities|;
      if removed {
        WithoutOne(cities, id);
        cities := Without(cities, {id});
      }
    }
  }
}
