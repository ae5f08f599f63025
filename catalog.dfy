/**
 * The farm catalog (`FARMS`): category name -> farm id -> {name, income},
 * both levels insertion-ordered dictionaries; the `/addfarm` upsert; and the
 * loops that render a category's farms as menu lines (`/listfarms` and the
 * calculator's farm prompt).
 */
module FarmCatalog {
  import opened Wrappers
  import Dict

  type CategoryName = string
  type FarmId = string

  /** One farm: its display name and its income rate in millions per hour. */
  datatype Farm = Farm(name: string, income: real)

  /** The farms of one category, by id, in insertion order. */
  type Farms = seq<(FarmId, Farm)>

  /** The whole catalog, by category name, in insertion order. */
  type Catalog = seq<(CategoryName, Farms)>

  /** `FARMS[category][fid]`, when both keys are present. */
  function FarmOf(c: Catalog, category: CategoryName, fid: FarmId): Option<Farm> {
    match Dict.Get(c, category)
    case None => None
    case Some(farms) => Dict.Get(farms, fid)
  }

  /** No category occurs twice and no farm id occurs twice within its category, as in any Python dict. */
  ghost predicate WellFormed(c: Catalog) {
    && Dict.Distinct(Dict.Keys(c))
    && forall category :: Dict.Get(c, category).Some? ==> Dict.Distinct(Dict.Keys(Dict.Get(c, category).value))
  }

  /** Every category and every farm of `c` is still present in `c'`. */
  ghost predicate Extends(c: Catalog, c': Catalog) {
    && (forall category :: Dict.Contains(c, category) ==> Dict.Contains(c', category))
    && (forall category, fid :: FarmOf(c, category, fid).Some? ==> FarmOf(c', category, fid).Some?)
  }

  /**
   * The in-memory part of `/addfarm`: create the category empty if it is
   * missing, then set its farm `fid`. Afterwards that farm is the new one; every
   * other category and every other farm of the category is untouched; a new
   * category is appended to the category order and a new farm id to its
   * category's order; nothing is removed.
   */
  function Upsert(c: Catalog, category: CategoryName, fid: FarmId, farm: Farm): (r: Catalog)
    ensures FarmOf(r, category, fid) == Some(farm)
    ensures forall other :: other != category ==> Dict.Get(r, other) == Dict.Get(c, other)
    ensures forall other :: other != fid ==> FarmOf(r, category, other) == FarmOf(c, category, other)
    ensures Dict.Keys(r) == if Dict.Contains(c, category) then Dict.Keys(c) else Dict.Keys(c) + [category]
    ensures Dict.Keys(Dict.Get(r, category).value) ==
      var before := Dict.Get(c, category).GetOr([]);
      if Dict.Contains(before, fid) then Dict.Keys(before) else Dict.Keys(before) + [fid]
  {
    Dict.PutSpec(c, category, []);
    var withCategory := if Dict.Contains(c, category) then c else Dict.Put(c, category, []);
    var farms := Dict.Get(withCategory, category).value;
    Dict.PutSpec(farms, fid, farm);
    Dict.PutSpec(withCategory, category, Dict.Put(farms, fid, farm));
    Dict.Put(withCategory, category, Dict.Put(farms, fid, farm))
  }

  /** `/addfarm` never removes anything. */
  lemma UpsertExtends(c: Catalog, category: CategoryName, fid: FarmId, farm: Farm)
    ensures Extends(c, Upsert(c, category, fid, farm))
  {
    var r := Upsert(c, category, fid, farm);
    forall other | Dict.Contains(c, other) ensures Dict.Contains(r, other) {
      if other == category {
        assert FarmOf(r, category, fid).Some?;
      }
    }
  }

  /** `/addfarm` keeps category names unique and farm ids unique within each category. */
  lemma UpsertWellFormed(c: Catalog, category: CategoryName, fid: FarmId, farm: Farm)
    requires WellFormed(c)
    ensures WellFormed(Upsert(c, category, fid, farm))
  {
    var r := Upsert(c, category, fid, farm);
    if !Dict.Contains(c, category) {
      Dict.AppendKeepsDistinct(Dict.Keys(c), category);
    }
    var before := Dict.Get(c, category).GetOr([]);
    assert Dict.Distinct(Dict.Keys(before));
    if !Dict.Contains(before, fid) {
      Dict.AppendKeepsDistinct(Dict.Keys(before), fid);
    }
    assert Dict.Distinct(Dict.Keys(Dict.Get(r, category).value));
    forall other | Dict.Get(r, other).Some?
      ensures Dict.Distinct(Dict.Keys(Dict.Get(r, other).value))
    {
      if other != category {
        assert Dict.Get(r, other) == Dict.Get(c, other);
      }
    }
  }

  /** Adding the same farm id twice overwrites the first entry: the catalog is as if only the second call happened. */
  lemma UpsertOverwrites(c: Catalog, category: CategoryName, fid: FarmId, first: Farm, second: Farm)
    ensures Upsert(Upsert(c, category, fid, first), category, fid, second) == Upsert(c, category, fid, second)
  {
    Dict.PutSpec(c, category, []);
    var withCategory := if Dict.Contains(c, category) then c else Dict.Put(c, category, []);
    var farms := Dict.Get(withCategory, category).value;
    var once := Upsert(c, category, fid, first);
    var firstFarms := Dict.Put(farms, fid, first);
    assert once == Dict.Put(withCategory, category, firstFarms);
    Dict.PutSpec(withCategory, category, firstFarms);
    assert Dict.Get(once, category) == Some(firstFarms);
    assert Upsert(once, category, fid, second) ==
      Dict.Put(once, category, Dict.Put(firstFarms, fid, second));
    Dict.PutPut(farms, fid, first, second);
    Dict.PutPut(withCategory, category, firstFarms, Dict.Put(farms, fid, second));
  }

  /** What `/addfarm` answers. */
  datatype AddFarmReply =
    | NotAdmin                                                   // "You must be an admin to use this command."
    | Added(name: string, category: CategoryName, fid: FarmId)   // "Added farm '<name>' to category '<category>' with ID '<fid>'."

  /** The process-wide catalog that `/addfarm` mutates and every other command reads. */
  class FarmStore {
    var farms: Catalog

    /** The catalog is a dictionary of dictionaries: no key repeats at either level. */
    ghost predicate Valid()
      reads this
    {
      WellFormed(farms)
    }

    /** The catalog as read from the configuration at start-up. */
    constructor(initial: Catalog)
      requires WellFormed(initial)
      ensures Valid()
      ensures farms == initial
    {
      farms := initial;
    }

    /** `/addfarm`: only an administrator may change the catalog; anyone else gets a refusal and changes nothing. */
    method AddFarm(isAdmin: bool, category: CategoryName, fid: FarmId, name: string, income: real)
      returns (reply: AddFarmReply)
      requires Valid()
      modifies this
      ensures Valid()
      ensures reply == if isAdmin then Added(name, category, fid) else NotAdmin
      ensures farms == if isAdmin then Upsert(old(farms), category, fid, Farm(name, income)) else old(farms)
    {
      if !isAdmin {
        return NotAdmin;
      }
      UpsertWellFormed(farms, category, fid, Farm(name, income));
      if !Dict.Contains(farms, category) {
        Dict.PutSpec(farms, category, []);
        farms := Dict.Put(farms, category, []);
      }
      var entries := Dict.Get(farms, category).value;
      farms := Dict.Put(farms, category, Dict.Put(entries, fid, Farm(name, income)));
      reply := Added(name, category, fid);
    }
  }

  /** One line of a farm menu: `<fid>: <name> ($<income>M/hr)`. */
  datatype FarmLine = FarmLine(fid: FarmId, name: string, income: real)

  /** The menu lines of a category, one per farm in its order. */
  function FarmLines(farms: Farms): seq<FarmLine> {
    seq(|farms|, i requires 0 <= i < |farms| => FarmLine(farms[i].0, farms[i].1.name, farms[i].1.income))
  }

  /** The menu names every farm of the category once, in its order, with the name and rate stored for it. */
  lemma FarmLinesListCategory(farms: Farms)
    requires Dict.Distinct(Dict.Keys(farms))
    ensures |FarmLines(farms)| == |farms|
    ensures forall i :: 0 <= i < |farms| ==> FarmLines(farms)[i].fid == Dict.Keys(farms)[i]
    ensures forall i :: 0 <= i < |farms| ==>
      Dict.Get(farms, FarmLines(farms)[i].fid) == Some(Farm(FarmLines(farms)[i].name, FarmLines(farms)[i].income))
  {
    forall i | 0 <= i < |farms|
      ensures Dict.Get(farms, FarmLines(farms)[i].fid) == Some(Farm(FarmLines(farms)[i].name, FarmLines(farms)[i].income))
    {
      Dict.GetAt(farms, i);
    }
  }

  /** The loop over `farms.items()` that builds a farm menu. */
  method BuildFarmMenu(farms: Farms) returns (lines: seq<FarmLine>)
    ensures lines == FarmLines(farms)
  {
    lines := [];
    var i := 0;
    while i < |farms|
      invariant 0 <= i <= |farms|
      invariant lines == FarmLines(farms[..i])
    {
      assert farms[..i + 1][..i] == farms[..i];
      lines := lines + [FarmLine(farms[i].0, farms[i].1.name, farms[i].1.income)];
      i := i + 1;
    }
    assert farms[..i] == farms;
  }

  /** One category of the `/listfarms` listing: its name as a heading, then its farm lines. */
  datatype Section = Section(category: CategoryName, lines: seq<FarmLine>)

  function Listing(c: Catalog): seq<Section> {
    seq(|c|, i requires 0 <= i < |c| => Section(c[i].0, FarmLines(c[i].1)))
  }

  /** `/listfarms`: every category in catalog order, each with its farm menu. */
  method ListFarms(c: Catalog) returns (sections: seq<Section>)
    ensures sections == Listing(c)
  {
    sections := [];
    var i := 0;
    while i < |c|
      invariant 0 <= i <= |c|
      invariant sections == Listing(c[..i])
    {
      assert c[..i + 1][..i] == c[..i];
      var lines := BuildFarmMenu(c[i].1);
      sections := sections + [Section(c[i].0, lines)];
      i := i + 1;
    }
    assert c[..i] == c;
  }
}
