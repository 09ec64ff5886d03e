/** The document repository: the same parts as BSON documents, and the filter as a query
    of $in conditions. Assumed of the database: a unique index on "uuid"; a condition
    on a path holds of a document when the value there, or for an array one of its
    elements, is in the list; a missing path matches no listed value. */
module InventoryMongo {
  import opened Wrappers
  import opened Inventory

  // The field names of the documents.
  datatype Name =
    | F_uuid | F_name | F_description | F_price | F_stock_quantity | F_category
    | F_manufacturer | F_country | F_website | F_tags | F_created_at | F_updated_at

  // A date counts milliseconds.
  datatype Bson =
    | Str(s: string) | Num(n: int) | Date(ms: int) | Arr(elems: seq<Bson>) | Doc(fields: map<Name, Bson>)

  // Nanoseconds, in which a part's times are given, per millisecond.
  const MILLI := 1_000_000

  /** A time as a BSON date can hold it: rounded down to the millisecond. */
  function InMillis(time: int): int {
    time / MILLI * MILLI
  }

  /** The last whole millisecond, of a million nanoseconds, that is not after the time. */
  lemma InMillisIsFloor(time: int, ms: int)
    ensures InMillis(time) <= time < InMillis(time) + 1_000_000
    ensures ms * 1_000_000 <= time ==> ms * 1_000_000 <= InMillis(time)
    ensures InMillis(time) % 1_000_000 == 0
  {
  }

  // The paths the repository queries.
  datatype Path = UUID | NAME | CATEGORY | COUNTRY | TAGS

  function Segments(p: Path): seq<Name> {
    match p
    case UUID => [F_uuid]
    case NAME => [F_name]
    case CATEGORY => [F_category]
    case COUNTRY => [F_manufacturer, F_country]
    case TAGS => [F_tags]
  }

  // A query: for each path, the accepted values.
  type Query = map<Path, seq<Bson>>

  function At(b: Bson, path: seq<Name>): Option<Bson> {
    if path == [] then Some(b)
    else if b.Doc? && path[0] in b.fields then At(b.fields[path[0]], path[1..])
    else None
  }

  predicate In(value: Bson, accepted: seq<Bson>) {
    value in accepted || (value.Arr? && exists e :: e in value.elems && e in accepted)
  }

  predicate Holds(b: Bson, path: Path, accepted: seq<Bson>) {
    var found := At(b, Segments(path));
    found.Some? && In(found.value, accepted)
  }

  predicate Matches(b: Bson, q: Query) {
    forall path :: path in q ==> Holds(b, path, q[path])
  }

  function Strs(xs: seq<string>): seq<Bson> {
    seq(|xs|, i requires 0 <= i < |xs| => Str(xs[i]))
  }

  function Nums(xs: seq<int>): seq<Bson> {
    seq(|xs|, i requires 0 <= i < |xs| => Num(xs[i]))
  }

  function FieldOf(p: Part, name: Name): Option<Bson> {
    match name
    case F_uuid => Some(Str(p.uuid))
    case F_name => Some(Str(p.name))
    case F_description => Some(Str(p.description))
    case F_price => Some(Num(p.price))
    case F_stock_quantity => Some(Num(p.stock))
    case F_category => Some(Num(p.category))
    case F_manufacturer => if p.manufacturer.None? then None else Some(EncodeManufacturer(p.manufacturer.value))
    case F_tags => if p.tags == [] then None else Some(Arr(Strs(p.tags)))
    case F_created_at => Some(Date(p.createdAt / MILLI))
    case F_updated_at => Some(Date(p.updatedAt / MILLI))
    case _ => None
  }

  /** The document of a part: a nil manufacturer and empty tags are left out. */
  function Encode(p: Part): Bson {
    Doc(map name | name in PART_FIELDS && FieldOf(p, name).Some? :: FieldOf(p, name).value)
  }

  const PART_FIELDS := {F_uuid, F_name, F_description, F_price, F_stock_quantity, F_category, F_manufacturer,
                        F_tags, F_created_at, F_updated_at}

  function EncodeManufacturer(m: Manufacturer): Bson {
    Doc(map[F_name := Str(m.name), F_country := Str(m.country), F_website := Str(m.website)])
  }

  function StrAt(b: Bson, path: seq<Name>): string {
    match At(b, path)
    case Some(Str(s)) => s
    case _ => ""
  }

  function NumAt(b: Bson, path: seq<Name>): int {
    match At(b, path)
    case Some(Num(n)) => n
    case _ => 0
  }

  function TimeAt(b: Bson, path: seq<Name>): int {
    match At(b, path)
    case Some(Date(ms)) => ms * MILLI
    case _ => 0
  }

  function Texts(elems: seq<Bson>): seq<string> {
    seq(|elems|, i requires 0 <= i < |elems| => if elems[i].Str? then elems[i].s else "")
  }

  /** Reading a document back into a part: what is missing stays nil or empty. */
  function Decode(b: Bson): Part {
    Part(StrAt(b, [F_uuid]), StrAt(b, [F_name]), StrAt(b, [F_description]),
         NumAt(b, [F_price]), NumAt(b, [F_stock_quantity]), NumAt(b, [F_category]),
         if At(b, [F_manufacturer]).None? then None
         else Some(Manufacturer(StrAt(b, [F_manufacturer, F_name]), StrAt(b, [F_manufacturer, F_country]),
                                StrAt(b, [F_manufacturer, F_website]))),
         match At(b, [F_tags])
         case Some(Arr(elems)) => Texts(elems)
         case _ => [],
         TimeAt(b, [F_created_at]), TimeAt(b, [F_updated_at]))
  }

  /** Every field of the part is found in the document, where it belongs. */
  ghost predicate Carries(b: Bson, p: Part) {
    && CarriesPlain(b, p)
    && At(b, [F_created_at]) == Some(Date(p.createdAt / MILLI))
    && At(b, [F_updated_at]) == Some(Date(p.updatedAt / MILLI))
    && At(b, [F_tags]) == (if p.tags == [] then None else Some(Arr(Strs(p.tags))))
    && CarriesManufacturer(b, p.manufacturer)
  }

  ghost predicate CarriesPlain(b: Bson, p: Part) {
    && At(b, [F_uuid]) == Some(Str(p.uuid))
    && At(b, [F_name]) == Some(Str(p.name))
    && At(b, [F_description]) == Some(Str(p.description))
    && At(b, [F_price]) == Some(Num(p.price))
    && At(b, [F_stock_quantity]) == Some(Num(p.stock))
    && At(b, [F_category]) == Some(Num(p.category))
  }

  ghost predicate CarriesManufacturer(b: Bson, maker: Option<Manufacturer>) {
    && (At(b, [F_manufacturer]).None? <==> maker.None?)
    && At(b, [F_manufacturer, F_name]) == (if maker.None? then None else Some(Str(maker.value.name)))
    && At(b, [F_manufacturer, F_country]) == (if maker.None? then None else Some(Str(maker.value.country)))
    && At(b, [F_manufacturer, F_website]) == (if maker.None? then None else Some(Str(maker.value.website)))
  }

  lemma FieldAt(p: Part, name: Name)
    requires name in PART_FIELDS
    ensures At(Encode(p), [name]) == FieldOf(p, name)
  {
  }

  lemma ManufacturerAt(p: Part, sub: Name)
    ensures At(Encode(p), [F_manufacturer, sub]) ==
            if p.manufacturer.None? then None else At(EncodeManufacturer(p.manufacturer.value), [sub])
  {
    assert [F_manufacturer, sub][1..] == [sub];
  }

  lemma EncodeCarriesPlain(p: Part)
    ensures CarriesPlain(Encode(p), p)
  {
    forall name | name in PART_FIELDS
      ensures At(Encode(p), [name]) == FieldOf(p, name)
    {
      FieldAt(p, name);
    }
  }

  lemma EncodeCarriesManufacturer(p: Part)
    ensures CarriesManufacturer(Encode(p), p.manufacturer)
  {
    FieldAt(p, F_manufacturer);
    ManufacturerAt(p, F_name);
    ManufacturerAt(p, F_country);
    ManufacturerAt(p, F_website);
  }

  lemma EncodeCarries(p: Part)
    ensures Carries(Encode(p), p)
  {
    EncodeCarriesPlain(p);
    EncodeCarriesManufacturer(p);
    FieldAt(p, F_created_at);
    FieldAt(p, F_updated_at);
    FieldAt(p, F_tags);
  }

  /** The part as a document keeps it: only its times lose precision. */
  function Rounded(p: Part): Part {
    p.(createdAt := InMillis(p.createdAt), updatedAt := InMillis(p.updatedAt))
  }

  lemma DecodeReads(b: Bson, p: Part)
    requires Carries(b, p)
    ensures Decode(b) == Rounded(p)
  {
    assert Texts(Strs(p.tags)) == p.tags;
  }

  /** What is stored is read back, with its times rounded down to the millisecond. */
  lemma DecodeEncode(p: Part)
    ensures Decode(Encode(p)) == Rounded(p)
  {
    EncodeCarries(p);
    DecodeReads(Encode(p), p);
  }

  /** A document that some part was stored as: reading and storing it again changes nothing. */
  predicate Stored(b: Bson) {
    Encode(Decode(b)) == b
  }

  lemma EncodeIsStored(p: Part)
    ensures Stored(Encode(p))
  {
    DecodeEncode(p);
    assert forall name :: FieldOf(Rounded(p), name) == FieldOf(p, name);
  }

  // ---- The query ------------------------------------------------------------

  function Accepted(f: Filter, path: Path): seq<Bson> {
    match path
    case UUID => Strs(f.uuids)
    case NAME => Strs(f.names)
    case CATEGORY => Nums(f.categories)
    case COUNTRY => Strs(f.countries)
    case TAGS => Strs(f.tags)
  }

  function Conditions(f: Filter, paths: set<Path>): Query {
    map path | path in paths && Accepted(f, path) != [] :: Accepted(f, path)
  }

  /** One condition for each list of the filter that is not empty. */
  function QueryOf(f: Filter): Query {
    Conditions(f, {UUID, NAME, CATEGORY, COUNTRY, TAGS})
  }

  /** Nothing for an empty list; put is what the query covers so far. */
  method AddCondition(q: Query, path: Path, values: seq<Bson>, ghost f: Filter, ghost put: set<Path>)
    returns (q': Query)
    requires q == Conditions(f, put) && values == Accepted(f, path)
    ensures q' == Conditions(f, put + {path})
  {
    q' := q;
    if |values| > 0 {
      q' := q[path := values];
    }
  }

  /** Builds the query entry by entry; categories are converted one by one. */
  method BuildQuery(f: Filter) returns (q: Query)
    ensures q == QueryOf(f)
  {
    q := map[];
    q := AddCondition(q, UUID, Strs(f.uuids), f, {});
    q := AddCondition(q, NAME, Strs(f.names), f, {} + {UUID});
    var categories := ConvertCategories(f.categories);
    q := AddCondition(q, CATEGORY, categories, f, {} + {UUID} + {NAME});
    q := AddCondition(q, COUNTRY, Strs(f.countries), f, {} + {UUID} + {NAME} + {CATEGORY});
    q := AddCondition(q, TAGS, Strs(f.tags), f, {} + {UUID} + {NAME} + {CATEGORY} + {COUNTRY});
    assert {} + {UUID} + {NAME} + {CATEGORY} + {COUNTRY} + {TAGS} == {UUID, NAME, CATEGORY, COUNTRY, TAGS};
  }

  method ConvertCategories(xs: seq<int>) returns (categories: seq<Bson>)
    ensures categories == Nums(xs)
  {
    categories := [];
    for i := 0 to |xs|
      invariant categories == Nums(xs[..i])
    {
      assert xs[..i + 1][..i] == xs[..i];
      categories := categories + [Num(xs[i])];
    }
    assert xs[..|xs|] == xs;
  }

  lemma StrsHold(xs: seq<string>, x: string)
    ensures Str(x) in Strs(xs) <==> x in xs
  {
    if x in xs {
      var i :| 0 <= i < |xs| && xs[i] == x;
      assert Strs(xs)[i] == Str(x);
    }
  }

  lemma NumsHold(xs: seq<int>, x: int)
    ensures Num(x) in Nums(xs) <==> x in xs
  {
    if x in xs {
      var i :| 0 <= i < |xs| && xs[i] == x;
      assert Nums(xs)[i] == Num(x);
    }
  }

  lemma TagsIn(p: Part, tags: seq<string>)
    ensures In(Arr(Strs(p.tags)), Strs(tags)) <==> exists t :: t in tags && t in p.tags
  {
    if t :| t in tags && t in p.tags {
      StrsHold(tags, t);
      StrsHold(p.tags, t);
    }
    if e :| e in Strs(p.tags) && e in Strs(tags) {
      var i :| 0 <= i < |p.tags| && Strs(p.tags)[i] == e;
      StrsHold(tags, p.tags[i]);
      assert p.tags[i] in tags && p.tags[i] in p.tags;
    }
    assert Arr(Strs(p.tags)) !in Strs(tags);
  }

  /** Evaluating the query on a part's document is checking the five criteria on the
      part, for every filter and every part, with or without manufacturer and tags. */
  lemma QueryMeansCriteria(p: Part, f: Filter)
    ensures Matches(Encode(p), QueryOf(f)) <==> Satisfies(f, p.uuid, p)
  {
    var b := Encode(p);
    EncodeCarries(p);
    StrsHold(f.uuids, p.uuid);
    StrsHold(f.names, p.name);
    NumsHold(f.categories, p.category);
    if p.manufacturer.Some? {
      StrsHold(f.countries, p.manufacturer.value.country);
    }
    TagsIn(p, f.tags);
    QueryConditions(b, f);
  }

  lemma QueryConditions(b: Bson, f: Filter)
    ensures Matches(b, QueryOf(f)) <==>
            && (f.uuids != [] ==> Holds(b, UUID, Strs(f.uuids)))
            && (f.names != [] ==> Holds(b, NAME, Strs(f.names)))
            && (f.categories != [] ==> Holds(b, CATEGORY, Nums(f.categories)))
            && (f.countries != [] ==> Holds(b, COUNTRY, Strs(f.countries)))
            && (f.tags != [] ==> Holds(b, TAGS, Strs(f.tags)))
  {
    var q := QueryOf(f);
    assert forall path :: path in q <==> Accepted(f, path) != [];
    forall path | path in q && Matches(b, q)
      ensures Holds(b, path, Accepted(f, path))
    {
      assert Holds(b, path, q[path]);
    }
    if f.uuids != [] { assert UUID in q; }
    if f.names != [] { assert NAME in q; }
    if f.categories != [] { assert CATEGORY in q; }
    if f.countries != [] { assert COUNTRY in q; }
    if f.tags != [] { assert TAGS in q; }
  }

  // ---- The collection ---------------------------------------------------------

  /** The parts the documents stand for. */
  function Parts(docs: seq<Bson>): seq<Part> {
    seq(|docs|, i requires 0 <= i < |docs| => Decode(docs[i]))
  }

  /** The unique index on "uuid". */
  ghost predicate UniqueUuids(parts: seq<Part>) {
    forall i, j :: 0 <= i < j < |parts| ==> parts[i].uuid != parts[j].uuid
  }

  ghost predicate HasUuid(parts: seq<Part>, uuid: string) {
    exists i :: 0 <= i < |parts| && parts[i].uuid == uuid
  }

  /** What the cursor brings back: each document the query holds of, once, decoded. */
  function Found(docs: seq<Bson>, q: Query): seq<Part> {
    if docs == [] then []
    else (if Matches(docs[0], q) then [Decode(docs[0])] else []) + Found(docs[1..], q)
  }

  function Without<T>(xs: seq<T>, i: nat): seq<T>
    requires i < |xs|
  {
    xs[..i] + xs[i + 1..]
  }

  class MongoRepository {
    var docs: seq<Bson>

    constructor ()
      ensures docs == []
    {
      docs := [];
    }

    ghost predicate Valid()
      reads this
    {
      UniqueUuids(Parts(docs)) && forall b :: b in docs ==> Stored(b)
    }

    method IndexOf(uuid: string) returns (at: Option<nat>)
      ensures at.None? <==> !HasUuid(Parts(docs), uuid)
      ensures at.Some? ==> at.value < |docs| && Parts(docs)[at.value].uuid == uuid
    {
      for i := 0 to |docs|
        invariant forall j :: 0 <= j < i ==> Parts(docs)[j].uuid != uuid
      {
        if StrAt(docs[i], [F_uuid]) == uuid {
          assert Parts(docs)[i].uuid == uuid;
          return Some(i);
        }
      }
      return None;
    }

    /** Builds the query and reads the whole cursor, unless either fails. */
    method ListParts(filter: Filter, fails: bool) returns (parts: Option<seq<Part>>)
      requires Valid()
      ensures parts.None? <==> fails
      ensures parts.Some? ==>
                && UniqueUuids(parts.value)
                && forall p :: p in parts.value <==> p in Parts(docs) && Satisfies(filter, p.uuid, p)
    {
      var query := BuildQuery(filter);
      if fails {
        return None;
      }
      FoundMeans(docs, filter);
      return Some(Found(docs, query));
    }

    method CreatePart(part: Part, now: int, f: WriteFault) returns (ok: bool)
      requires Valid()
      modifies this
      ensures Valid()
      ensures ok <==> !HasUuid(Parts(old(docs)), part.uuid) && f.Clean?
      ensures Parts(docs) ==
              if !HasUuid(Parts(old(docs)), part.uuid) && !f.FailedBefore?
              then Parts(old(docs)) + [Rounded(part.(createdAt := now, updatedAt := now))] else Parts(old(docs))
    {
      var at := IndexOf(part.uuid);
      if at.Some? || f.FailedBefore? {
        return false;
      }
      var dated := part.(createdAt := now, updatedAt := now);
      InsertedDocument(docs, dated);
      docs := docs + [Encode(dated)];
      return f.Clean?;
    }

    method DeletePart(uuid: string, f: WriteFault) returns (ok: bool)
      requires Valid()
      modifies this
      ensures Valid()
      ensures ok <==> HasUuid(Parts(old(docs)), uuid) && f.Clean?
      ensures !HasUuid(Parts(old(docs)), uuid) || f.FailedBefore? ==> docs == old(docs)
      ensures HasUuid(Parts(old(docs)), uuid) && !f.FailedBefore? ==>
                exists i :: 0 <= i < |old(docs)| && Parts(old(docs))[i].uuid == uuid
                            && Parts(docs) == Without(Parts(old(docs)), i)
    {
      var at := IndexOf(uuid);
      if at.None? || f.FailedBefore? {
        return false;
      }
      DeletedDocument(docs, at.value);
      docs := Without(docs, at.value);
      return f.Clean?;
    }
  }

  lemma InsertedDocument(docs: seq<Bson>, p: Part)
    ensures Parts(docs + [Encode(p)]) == Parts(docs) + [Rounded(p)] && Stored(Encode(p))
    ensures (forall b :: b in docs ==> Stored(b)) ==> forall b :: b in docs + [Encode(p)] ==> Stored(b)
  {
    DecodeEncode(p);
    EncodeIsStored(p);
  }

  lemma DeletedDocument(docs: seq<Bson>, i: nat)
    requires i < |docs|
    ensures Parts(Without(docs, i)) == Without(Parts(docs), i)
    ensures forall b :: b in Without(docs, i) ==> b in docs
  {
  }

  /** The parts found are those of the stored documents that meet the five criteria,
      each once. */
  lemma {:induction false} FoundMeans(docs: seq<Bson>, f: Filter)
    requires UniqueUuids(Parts(docs)) && forall b :: b in docs ==> Stored(b)
    ensures var found := Found(docs, QueryOf(f));
            && UniqueUuids(found)
            && forall p :: p in found <==> p in Parts(docs) && Satisfies(f, p.uuid, p)
  {
    if docs != [] {
      var first, rest := Decode(docs[0]), Parts(docs[1..]);
      assert docs[0] in docs && Parts(docs)[0] == first && Parts(docs)[1..] == rest;
      FoundMeans(docs[1..], f);
      QueryMeansCriteria(first, f);
      FirstAndRest(Parts(docs), Found(docs[1..], QueryOf(f)), f);
    }
  }

  lemma FirstAndRest(parts: seq<Part>, found: seq<Part>, f: Filter)
    requires parts != [] && UniqueUuids(parts) && UniqueUuids(found)
    requires forall p :: p in found <==> p in parts[1..] && Satisfies(f, p.uuid, p)
    ensures var first := if Satisfies(f, parts[0].uuid, parts[0]) then [parts[0]] else [];
            && UniqueUuids(first + found)
            && forall p :: p in first + found <==> p in parts && Satisfies(f, p.uuid, p)
  {
    assert forall p :: p in parts <==> p == parts[0] || p in parts[1..];
  }

  // ---- Both repositories under the same operations --------------------------

  function Untimed(p: Part): Part {
    p.(createdAt := 0, updatedAt := 0)
  }

  /** The two stores hold the same parts, timestamps aside. */
  ghost predicate SameParts(parts: map<string, Part>, listed: seq<Part>) {
    && UniqueUuids(listed)
    && (forall k :: k in parts ==> parts[k].uuid == k && HasUuid(listed, k))
    && (forall i :: 0 <= i < |listed| ==>
          listed[i].uuid in parts && Untimed(parts[listed[i].uuid]) == Untimed(listed[i]))
  }

  datatype Op = Create(part: Part, now: int, f: WriteFault) | Delete(uuid: string, f: WriteFault)

  predicate NoFault(ops: seq<Op>) {
    forall op :: op in ops ==> op.f.Clean?
  }

  /** Any run of creates and deletes, done to both: as long as the database reports no
      failure they agree on every success and error, and hold the same parts. */
  method RunBoth(mem: InventoryRepository, mongo: MongoRepository, ops: seq<Op>)
    returns (memOks: seq<bool>, mongoOks: seq<bool>)
    requires mem.parts == map[] && mongo.docs == []
    modifies mem, mongo
    ensures |memOks| == |mongoOks| == |ops| && mongo.Valid()
    ensures NoFault(ops) ==> memOks == mongoOks && SameParts(mem.parts, Parts(mongo.docs))
  {
    memOks, mongoOks := [], [];
    for i := 0 to |ops|
      invariant |memOks| == |mongoOks| == i && mongo.Valid()
      invariant NoFault(ops[..i]) ==> memOks == mongoOks && SameParts(mem.parts, Parts(mongo.docs))
    {
      assert forall op :: op in ops[..i + 1] <==> op in ops[..i] || op == ops[i];
      var ok, ok' := ApplyBoth(mem, mongo, ops[i]);
      memOks, mongoOks := memOks + [ok], mongoOks + [ok'];
    }
    assert ops[..|ops|] == ops;
  }

  method ApplyBoth(mem: InventoryRepository, mongo: MongoRepository, op: Op) returns (ok: bool, ok': bool)
    requires mongo.Valid()
    modifies mem, mongo
    ensures mongo.Valid()
    ensures op.f.Clean? && old(SameParts(mem.parts, Parts(mongo.docs))) ==>
              ok == ok' && SameParts(mem.parts, Parts(mongo.docs))
  {
    ghost var parts, listed := mem.parts, Parts(mongo.docs);
    match op {
      case Create(part, now, f) =>
        ok := mem.CreatePart(part);
        ok' := mongo.CreatePart(part, now, f);
        if SameParts(parts, listed) && part.uuid !in parts {
          CreateKeepsSame(parts, listed, part, Rounded(part.(createdAt := now, updatedAt := now)));
        }
      case Delete(uuid, f) =>
        ok := mem.DeletePart(uuid);
        ok' := mongo.DeletePart(uuid, f);
        if SameParts(parts, listed) && ok' {
          ghost var j :| 0 <= j < |listed| && listed[j].uuid == uuid && Parts(mongo.docs) == Without(listed, j);
          DeleteKeepsSame(parts, listed, uuid, j);
        } else if uuid !in parts {
          assert parts - {uuid} == parts;
        }
    }
  }

  lemma CreateKeepsSame(parts: map<string, Part>, listed: seq<Part>, part: Part, stored: Part)
    requires SameParts(parts, listed) && part.uuid !in parts && Untimed(stored) == Untimed(part)
    ensures SameParts(parts[part.uuid := part], listed + [stored])
    ensures !HasUuid(listed, part.uuid)
  {
    var listed' := listed + [stored];
    assert stored.uuid == Untimed(stored).uuid == part.uuid;
    assert listed'[|listed|].uuid == part.uuid;
    forall k | HasUuid(listed, k)
      ensures HasUuid(listed', k)
    {
      var i :| 0 <= i < |listed| && listed[i].uuid == k;
      assert listed'[i] == listed[i];
    }
  }

  lemma DeleteKeepsSame(parts: map<string, Part>, listed: seq<Part>, uuid: string, at: nat)
    requires SameParts(parts, listed) && at < |listed| && listed[at].uuid == uuid
    ensures SameParts(parts - {uuid}, Without(listed, at))
  {
    var listed' := Without(listed, at);
    forall k | k in parts - {uuid}
      ensures HasUuid(listed', k)
    {
      var i :| 0 <= i < |listed| && listed[i].uuid == k;
      assert listed'[if i < at then i else i - 1] == listed[i];
    }
  }

  lemma SatisfiesUntimed(f: Filter, p: Part, q: Part)
    requires Untimed(p) == Untimed(q)
    ensures Satisfies(f, p.uuid, p) <==> Satisfies(f, q.uuid, q)
  {
    assert Untimed(p).tags == p.tags && Untimed(p).manufacturer == p.manufacturer;
    assert Untimed(p).uuid == p.uuid && Untimed(p).name == p.name && Untimed(p).category == p.category;
  }

  /** Stores that hold the same parts answer every filter with the same parts, each
      once, timestamps aside. */
  lemma SamePartsSelected(parts: map<string, Part>, docs: seq<Bson>, f: Filter)
    requires SameParts(parts, Parts(docs)) && forall b :: b in docs ==> Stored(b)
    ensures var found, kept := Found(docs, QueryOf(f)), Selected(parts, f);
            && UniqueUuids(found)
            && (forall p :: p in found ==> p.uuid in kept && Untimed(p) == Untimed(kept[p.uuid]))
            && (forall k :: k in kept ==> exists p :: p in found && p.uuid == k)
  {
    FoundMeans(docs, f);
    SelectedFromSame(parts, Parts(docs), Found(docs, QueryOf(f)), f);
  }

  lemma SelectedFromSame(parts: map<string, Part>, listed: seq<Part>, found: seq<Part>, f: Filter)
    requires SameParts(parts, listed)
    requires forall p :: p in found <==> p in listed && Satisfies(f, p.uuid, p)
    ensures forall p :: p in found ==> p.uuid in Selected(parts, f) && Untimed(p) == Untimed(parts[p.uuid])
    ensures forall k :: k in Selected(parts, f) ==> exists p :: p in found && p.uuid == k
  {
    forall p | p in found
      ensures p.uuid in Selected(parts, f) && Untimed(p) == Untimed(parts[p.uuid])
    {
      SatisfiesUntimed(f, p, parts[p.uuid]);
    }
    forall k | k in Selected(parts, f)
      ensures exists p :: p in found && p.uuid == k
    {
      var i :| 0 <= i < |listed| && listed[i].uuid == k;
      SatisfiesUntimed(f, parts[k], listed[i]);
      assert listed[i] in found;
    }
  }
}
