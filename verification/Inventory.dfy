/** The in-memory parts repository and its five-pass filter. */
module Inventory {
  import opened Wrappers

  datatype Manufacturer = Manufacturer(name: string, country: string, website: string)

  datatype Part = Part(
    uuid: string,
    name: string,
    description: string,
    price: int,
    stock: int,
    category: int,
    manufacturer: Option<Manufacturer>,
    tags: seq<string>,
    createdAt: int,
    updatedAt: int)

  datatype Filter = Filter(
    uuids: seq<string>,
    names: seq<string>,
    categories: seq<int>,
    countries: seq<string>,
    tags: seq<string>)

  // One of the five passes with its list of accepted values.
  datatype Pass =
    | ByUuids(uuids: seq<string>)
    | ByNames(names: seq<string>)
    | ByCategories(categories: seq<int>)
    | ByCountries(countries: seq<string>)
    | ByTags(tags: seq<string>)

  /** What a pass asks of a part stored under key: nothing if its list is empty. */
  ghost predicate Meets(pass: Pass, key: string, p: Part) {
    match pass
    case ByUuids(us) => us == [] || key in us
    case ByNames(ns) => ns == [] || p.name in ns
    case ByCategories(cs) => cs == [] || p.category in cs
    case ByCountries(cs) => cs == [] || (p.manufacturer.Some? && p.manufacturer.value.country in cs)
    case ByTags(ts) => ts == [] || exists t :: t in ts && t in p.tags
  }

  ghost function Keep(parts: map<string, Part>, pass: Pass): map<string, Part> {
    map k | k in parts && Meets(pass, k, parts[k]) :: parts[k]
  }

  ghost function KeepAll(parts: map<string, Part>, passes: seq<Pass>): map<string, Part> {
    if passes == [] then parts else KeepAll(Keep(parts, passes[0]), passes[1..])
  }

  function PassesOf(f: Filter): seq<Pass> {
    [ByUuids(f.uuids), ByNames(f.names), ByCategories(f.categories), ByCountries(f.countries), ByTags(f.tags)]
  }

  /** All five criteria at once. */
  ghost predicate Satisfies(f: Filter, key: string, p: Part) {
    && (f.uuids == [] || key in f.uuids)
    && (f.names == [] || p.name in f.names)
    && (f.categories == [] || p.category in f.categories)
    && (f.countries == [] || (p.manufacturer.Some? && p.manufacturer.value.country in f.countries))
    && (f.tags == [] || exists t :: t in f.tags && t in p.tags)
  }

  ghost function Selected(parts: map<string, Part>, f: Filter): map<string, Part> {
    map k | k in parts && Satisfies(f, k, parts[k]) :: parts[k]
  }

  lemma {:induction false} KeepAllIsConjunction(parts: map<string, Part>, passes: seq<Pass>)
    ensures KeepAll(parts, passes) ==
            map k | k in parts && (forall pass :: pass in passes ==> Meets(pass, k, parts[k])) :: parts[k]
  {
    if passes != [] {
      KeepAllIsConjunction(Keep(parts, passes[0]), passes[1..]);
      assert forall pass :: pass in passes <==> pass == passes[0] || pass in passes[1..];
    }
  }

  /** The five passes give the selected parts in any order, with any repetitions. */
  lemma PassesCommute(parts: map<string, Part>, f: Filter, passes: seq<Pass>)
    requires forall pass :: pass in passes <==> pass in PassesOf(f)
    ensures KeepAll(parts, passes) == Selected(parts, f)
  {
    KeepAllIsConjunction(parts, passes);
    var five := PassesOf(f);
    assert five[0] in five && five[1] in five && five[2] in five && five[3] in five && five[4] in five;
    forall k | k in parts
      ensures (forall pass :: pass in passes ==> Meets(pass, k, parts[k])) <==> Satisfies(f, k, parts[k])
    {
      assert forall pass :: pass in passes ==>
               pass == five[0] || pass == five[1] || pass == five[2] || pass == five[3] || pass == five[4];
      if forall pass :: pass in passes ==> Meets(pass, k, parts[k]) {
        assert Meets(five[0], k, parts[k]) && Meets(five[1], k, parts[k]) && Meets(five[2], k, parts[k])
               && Meets(five[3], k, parts[k]) && Meets(five[4], k, parts[k]);
      }
    }
  }

  predicate IsEmptyFilter(f: Filter) {
    |f.uuids| == 0 && |f.names| == 0 && |f.categories| == 0 && |f.countries| == 0 && |f.tags| == 0
  }

  /** The listing holds each part of the map exactly once, and nothing else. */
  ghost predicate Lists(result: seq<Part>, parts: map<string, Part>) {
    exists keys :: InOrder(result, keys, parts)
  }

  /** In the order of these keys. */
  ghost predicate InOrder(result: seq<Part>, keys: seq<string>, parts: map<string, Part>) {
    && |result| == |keys|
    && (forall i, j :: 0 <= i < j < |keys| ==> keys[i] != keys[j])
    && (forall k :: k in keys <==> k in parts)
    && (forall i :: 0 <= i < |keys| ==> result[i] == parts[keys[i]])
  }

  class InventoryRepository {
    var parts: map<string, Part>

    constructor ()
      ensures parts == map[]
    {
      parts := map[];
    }

    method GetPart(uuid: string) returns (r: Option<Part>)
      ensures r == if uuid in parts then Some(parts[uuid]) else None
    {
      return if uuid in parts then Some(parts[uuid]) else None;
    }

    method CreatePart(part: Part) returns (ok: bool)
      modifies this
      ensures ok <==> part.uuid !in old(parts)
      ensures parts == if ok then old(parts)[part.uuid := part] else old(parts)
    {
      if part.uuid in parts {
        return false;
      }
      parts := parts[part.uuid := part];
      return true;
    }

    method UpdatePart(uuid: string, part: Part) returns (ok: bool)
      modifies this
      ensures ok <==> uuid in old(parts)
      ensures parts == if ok then old(parts)[uuid := part] else old(parts)
    {
      if uuid !in parts {
        return false;
      }
      parts := parts[uuid := part];
      return true;
    }

    method DeletePart(uuid: string) returns (ok: bool)
      modifies this
      ensures ok <==> uuid in old(parts)
      ensures parts == old(parts) - {uuid}
    {
      if uuid !in parts {
        return false;
      }
      parts := parts - {uuid};
      return true;
    }

    /** Each stored part that meets all five criteria exactly once, and nothing else. */
    method ListParts(filter: Filter) returns (result: seq<Part>)
      ensures Lists(result, Selected(parts, filter))
    {
      if IsEmptyFilter(filter) {
        assert Selected(parts, filter) == parts;
        result := Collect(parts);
        return;
      }
      var candidates := ApplyFilters(parts, filter);
      result := Collect(candidates);
    }
  }

  /** A map's values in whatever order it hands them out. */
  method Collect(parts: map<string, Part>) returns (result: seq<Part>)
    ensures Lists(result, parts)
  {
    ghost var keys: seq<string> := [];
    result := [];
    var todo := parts.Keys;
    while todo != {}
      invariant todo <= parts.Keys
      invariant |result| == |keys|
      invariant forall i, j :: 0 <= i < j < |keys| ==> keys[i] != keys[j]
      invariant forall k :: k in keys <==> k in parts && k !in todo
      invariant forall i :: 0 <= i < |keys| ==> keys[i] in parts && result[i] == parts[keys[i]]
      decreases |todo|
    {
      var k :| k in todo;
      todo := todo - {k};
      result, keys := result + [parts[k]], keys + [k];
    }
    assert InOrder(result, keys, parts);
  }

  method ApplyFilters(parts: map<string, Part>, filter: Filter) returns (candidates: map<string, Part>)
    ensures candidates == Selected(parts, filter)
  {
    candidates := parts;
    candidates := FilterByUuids(candidates, filter.uuids);
    candidates := FilterByNames(candidates, filter.names);
    candidates := FilterByCategories(candidates, filter.categories);
    candidates := FilterByCountries(candidates, filter.countries);
    candidates := FilterByTags(candidates, filter.tags);
  }

  method FilterByUuids(candidates: map<string, Part>, uuids: seq<string>) returns (filtered: map<string, Part>)
    ensures filtered == Keep(candidates, ByUuids(uuids))
  {
    if |uuids| == 0 {
      return candidates;
    }
    filtered := map[];
    for i := 0 to |uuids|
      invariant filtered == map k | k in candidates && k in uuids[..i] :: candidates[k]
    {
      assert uuids[..i + 1] == uuids[..i] + [uuids[i]];
      if uuids[i] in candidates {
        filtered := filtered[uuids[i] := candidates[uuids[i]]];
      }
    }
    assert uuids[..|uuids|] == uuids;
  }

  method FilterByNames(candidates: map<string, Part>, names: seq<string>) returns (filtered: map<string, Part>)
    ensures filtered == Keep(candidates, ByNames(names))
  {
    if |names| == 0 {
      return candidates;
    }
    filtered := map[];
    var todo := candidates.Keys;
    while todo != {}
      invariant todo <= candidates.Keys
      invariant filtered == map k | k in candidates && k !in todo && candidates[k].name in names :: candidates[k]
      decreases |todo|
    {
      var k :| k in todo;
      todo := todo - {k};
      ghost var before := filtered;
      for i := 0 to |names|
        invariant candidates[k].name !in names[..i] && filtered == before
      {
        if candidates[k].name == names[i] {
          filtered := filtered[k := candidates[k]];
          break;
        }
      }
    }
  }

  method FilterByCategories(candidates: map<string, Part>, categories: seq<int>) returns (filtered: map<string, Part>)
    ensures filtered == Keep(candidates, ByCategories(categories))
  {
    if |categories| == 0 {
      return candidates;
    }
    filtered := map[];
    var todo := candidates.Keys;
    while todo != {}
      invariant todo <= candidates.Keys
      invariant filtered == map k | k in candidates && k !in todo && candidates[k].category in categories
                              :: candidates[k]
      decreases |todo|
    {
      var k :| k in todo;
      todo := todo - {k};
      ghost var before := filtered;
      for i := 0 to |categories|
        invariant candidates[k].category !in categories[..i] && filtered == before
      {
        if candidates[k].category == categories[i] {
          filtered := filtered[k := candidates[k]];
          break;
        }
      }
    }
  }

  method FilterByCountries(candidates: map<string, Part>, countries: seq<string>) returns (filtered: map<string, Part>)
    ensures filtered == Keep(candidates, ByCountries(countries))
  {
    if |countries| == 0 {
      return candidates;
    }
    filtered := map[];
    var todo := candidates.Keys;
    while todo != {}
      invariant todo <= candidates.Keys
      invariant filtered == map k | k in candidates && k !in todo && Meets(ByCountries(countries), k, candidates[k])
                              :: candidates[k]
      decreases |todo|
    {
      var k :| k in todo;
      todo := todo - {k};
      if candidates[k].manufacturer.None? {
        continue;
      }
      ghost var before := filtered;
      for i := 0 to |countries|
        invariant candidates[k].manufacturer.value.country !in countries[..i] && filtered == before
      {
        if candidates[k].manufacturer.value.country == countries[i] {
          filtered := filtered[k := candidates[k]];
          break;
        }
      }
    }
  }

  /** Leaves both inner loops at the first tag in common. */
  method FilterByTags(candidates: map<string, Part>, tags: seq<string>) returns (filtered: map<string, Part>)
    ensures filtered == Keep(candidates, ByTags(tags))
  {
    if |tags| == 0 {
      return candidates;
    }
    filtered := map[];
    var todo := candidates.Keys;
    while todo != {}
      invariant todo <= candidates.Keys
      invariant filtered == map k | k in candidates && k !in todo && Meets(ByTags(tags), k, candidates[k])
                              :: candidates[k]
      decreases |todo|
    {
      var k :| k in todo;
      todo := todo - {k};
      var partTags := candidates[k].tags;
      ghost var before := filtered;
      label nextPart:
      for i := 0 to |tags|
        invariant (forall t :: t in tags[..i] ==> t !in partTags) && filtered == before
      {
        for j := 0 to |partTags|
          invariant tags[i] !in partTags[..j] && filtered == before
        {
          if partTags[j] == tags[i] {
            assert tags[i] in tags && tags[i] in partTags;
            filtered := filtered[k := candidates[k]];
            break nextPart;
          }
        }
        assert tags[..i + 1] == tags[..i] + [tags[i]];
      }
    }
  }
}
