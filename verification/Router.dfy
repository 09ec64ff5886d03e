/** The order API's generated router, for unescaped paths, and the paths its generated
    client builds. */
module Router {
  import opened Wrappers
  import Domain

  datatype Operation = CreateOrder | GetOrder | CancelOrder | PayOrder

  datatype Served = Handled(op: Operation, args: seq<string>) | NotAllowed(allow: string) | NotFound

  const ORDERS := "/api/v1/orders"

  function VerbOf(op: Operation): string {
    if op.GetOrder? then "GET" else "POST"
  }

  predicate NoSlash(s: string) {
    '/' !in s
  }

  /** The four path templates, after "/api/v1/orders". */
  function Filled(op: Operation, args: seq<string>): string
    requires op.CreateOrder? || |args| == 1
  {
    match op
    case CreateOrder => ""
    case GetOrder => "/" + args[0]
    case CancelOrder => "/" + args[0] + "/cancel"
    case PayOrder => "/" + args[0] + "/pay"
  }

  /** The path is the operation's template filled in with the arguments. */
  predicate Fits(op: Operation, path: string, args: seq<string>) {
    && (if op.CreateOrder? then args == [] else |args| == 1 && NoSlash(args[0]))
    && path == ORDERS + Filled(op, args)
  }

  /** The same under the server's configured prefix. */
  predicate FitsUnder(prefix: string, op: Operation, path: string, args: seq<string>) {
    prefix <= path && Fits(op, path[|prefix|..], args)
  }

  function IndexByte(s: string, c: char): Option<nat> {
    if s == "" then None
    else if s[0] == c then Some(0)
    else
      match IndexByte(s[1..], c)
      case None => None
      case Some(i) => Some(i + 1)
  }

  lemma {:induction false} IndexByteMeans(s: string, c: char)
    ensures IndexByte(s, c).None? ==> c !in s
    ensures IndexByte(s, c).Some? ==>
              var i := IndexByte(s, c).value; i < |s| && s[i] == c && c !in s[..i]
  {
    if s != "" && s[0] != c {
      IndexByteMeans(s[1..], c);
      if IndexByte(s[1..], c).Some? {
        var i := IndexByte(s[1..], c).value;
        assert s[..i + 1] == [s[0]] + s[1..][..i];
      }
    }
  }

  /** Up to the first slash, and the rest. */
  function SlashOrEnd(s: string): nat {
    match IndexByte(s, '/')
    case None => |s|
    case Some(i) => i
  }

  lemma SlashOrEndMeans(s: string)
    ensures SlashOrEnd(s) <= |s| && NoSlash(s[..SlashOrEnd(s)])
    ensures SlashOrEnd(s) < |s| ==> s[SlashOrEnd(s)] == '/'
  {
    IndexByteMeans(s, '/');
    assert s[..|s|] == s;
  }

  lemma {:induction false} SlashOrEndOf(arg: string, tail: string)
    requires NoSlash(arg) && (tail == "" || tail[0] == '/')
    ensures SlashOrEnd(arg + tail) == |arg|
  {
    if arg != "" {
      assert (arg + tail)[1..] == arg[1..] + tail;
      SlashOrEndOf(arg[1..], tail);
    }
  }

  /** What the path names, reading it once from the left. */
  function Parse(path: string): Option<(Operation, seq<string>)> {
    if ORDERS <= path then ParseRest(path[|ORDERS|..]) else None
  }

  function ParseRest(rest: string): Option<(Operation, seq<string>)> {
    if rest == "" then Some((CreateOrder, []))
    else if rest[0] != '/' then None
    else ParseTail(rest[1..])
  }

  function ParseTail(s: string): Option<(Operation, seq<string>)> {
    SlashOrEndMeans(s);
    NamedBy(s[..SlashOrEnd(s)], s[SlashOrEnd(s)..])
  }

  function NamedBy(arg: string, tail: string): Option<(Operation, seq<string>)> {
    if tail == "" then Some((GetOrder, [arg]))
    else if tail == "/cancel" then Some((CancelOrder, [arg]))
    else if tail == "/pay" then Some((PayOrder, [arg]))
    else None
  }

  lemma NamedByEnding(arg: string, ending: string)
    ensures NamedBy(arg, "/" + ending) ==
            if ending == "cancel" then Some((CancelOrder, [arg]))
            else if ending == "pay" then Some((PayOrder, [arg]))
            else None
  {
    assert ("/" + ending)[1..] == ending;
    assert "/cancel" == "/" + "cancel" && "/cancel"[1..] == "cancel";
    assert "/pay" == "/" + "pay" && "/pay"[1..] == "pay";
  }

  function Tail(op: Operation): string {
    match op
    case CancelOrder => "/cancel"
    case PayOrder => "/pay"
    case _ => ""
  }

  lemma TailParses(op: Operation, arg: string)
    requires NoSlash(arg) && !op.CreateOrder?
    ensures ParseTail(arg + Tail(op)) == Some((op, [arg]))
  {
    var s := arg + Tail(op);
    SlashOrEndOf(arg, Tail(op));
    assert s[..|arg|] == arg && s[|arg|..] == Tail(op);
  }

  lemma FilledParses(op: Operation, args: seq<string>)
    requires if op.CreateOrder? then args == [] else |args| == 1 && NoSlash(args[0])
    ensures ParseRest(Filled(op, args)) == Some((op, args))
  {
    if !op.CreateOrder? {
      assert Filled(op, args)[1..] == args[0] + Tail(op);
      TailParses(op, args[0]);
      assert args == [args[0]];
    }
  }

  lemma FitsParses(op: Operation, path: string, args: seq<string>)
    requires Fits(op, path, args)
    ensures Parse(path) == Some((op, args))
  {
    assert path[|ORDERS|..] == Filled(op, args);
    FilledParses(op, args);
  }

  lemma ParsesFits(op: Operation, path: string, args: seq<string>)
    requires Parse(path) == Some((op, args))
    ensures Fits(op, path, args)
  {
    var rest := path[|ORDERS|..];
    assert path == ORDERS + rest;
    if rest != "" {
      var s := rest[1..];
      SlashOrEndMeans(s);
      assert rest == "/" + s && s == s[..SlashOrEnd(s)] + s[SlashOrEnd(s)..];
      assert rest == Filled(op, args);
    }
  }

  /** A path fits at most one template, in one way. */
  lemma TemplatesNeverOverlap(path: string, op: Operation, args: seq<string>, op': Operation, args': seq<string>)
    requires Fits(op, path, args) && Fits(op', path, args')
    ensures op == op' && args == args'
  {
    FitsParses(op, path, args);
    FitsParses(op', path, args');
  }

  /** What ServeHTTP comes to, and what FindPath finds. */
  function ServedOf(prefix: string, verb: string, path: string): Served {
    if !(prefix <= path) then NotFound
    else
      match Parse(path[|prefix|..])
      case None => NotFound
      case Some((op, args)) => if verb == VerbOf(op) then Handled(op, args) else NotAllowed(VerbOf(op))
  }

  function RouteOf(prefix: string, verb: string, path: string): Option<(Operation, seq<string>)> {
    match ServedOf(prefix, verb, path)
    case Handled(op, args) => Some((op, args))
    case _ => None
  }

  /** For every verb and path: an operation is served exactly when its template fits
      under the prefix and the verb is its own; "method not allowed" exactly when a
      template fits with another verb; "not found" exactly when none fits. */
  lemma ServedMeansTemplates(prefix: string, verb: string, path: string)
    ensures var r := ServedOf(prefix, verb, path);
            && (forall op, args :: r == Handled(op, args) <==> FitsUnder(prefix, op, path, args) && verb == VerbOf(op))
            && (r.NotAllowed? <==> exists op, args :: FitsUnder(prefix, op, path, args) && verb != VerbOf(op))
            && (r.NotFound? <==> forall op, args :: !FitsUnder(prefix, op, path, args))
  {
    if prefix <= path {
      var rest := path[|prefix|..];
      forall op, args
        ensures Parse(rest) == Some((op, args)) <==> FitsUnder(prefix, op, path, args)
      {
        if Parse(rest) == Some((op, args)) {
          ParsesFits(op, rest, args);
        }
        if Fits(op, rest, args) {
          FitsParses(op, rest, args);
        }
      }
      if Parse(rest).Some? {
        var (op, args) := Parse(rest).value;
        assert FitsUnder(prefix, op, path, args);
      }
    }
  }

  function FullPath(op: Operation, arg: string): string {
    match op
    case CreateOrder => "/api/v1/orders"
    case GetOrder => "/api/v1/orders/" + arg
    case CancelOrder => "/api/v1/orders/" + arg + "/cancel"
    case PayOrder => "/api/v1/orders/" + arg + "/pay"
  }

  lemma FullPathFits(op: Operation, arg: string)
    requires NoSlash(arg)
    ensures Fits(op, FullPath(op, arg), if op.CreateOrder? then [] else [arg])
  {
    var args := if op.CreateOrder? then [] else [arg];
    assert ORDERS + "/" == "/api/v1/orders/";
    if !op.CreateOrder? {
      assert Filled(op, args) == "/" + arg + Tail(op);
      assert ORDERS + ("/" + arg + Tail(op)) == ORDERS + "/" + arg + Tail(op);
      assert "/api/v1/orders/" + arg + "" == "/api/v1/orders/" + arg;
    }
  }

  /** The four routes in full, with their verbs: what is served at each, and the verb
      that is allowed instead. */
  lemma FourRoutes(prefix: string, verb: string, arg: string)
    requires NoSlash(arg)
    ensures ServedOf(prefix, verb, prefix + "/api/v1/orders") ==
            if verb == "POST" then Handled(CreateOrder, []) else NotAllowed("POST")
    ensures ServedOf(prefix, verb, prefix + ("/api/v1/orders/" + arg)) ==
            if verb == "GET" then Handled(GetOrder, [arg]) else NotAllowed("GET")
    ensures ServedOf(prefix, verb, prefix + ("/api/v1/orders/" + arg + "/cancel")) ==
            if verb == "POST" then Handled(CancelOrder, [arg]) else NotAllowed("POST")
    ensures ServedOf(prefix, verb, prefix + ("/api/v1/orders/" + arg + "/pay")) ==
            if verb == "POST" then Handled(PayOrder, [arg]) else NotAllowed("POST")
  {
    ServedInFull(prefix, verb, CreateOrder, arg);
    ServedInFull(prefix, verb, GetOrder, arg);
    ServedInFull(prefix, verb, CancelOrder, arg);
    ServedInFull(prefix, verb, PayOrder, arg);
  }

  lemma ServedInFull(prefix: string, verb: string, op: Operation, arg: string)
    requires NoSlash(arg)
    ensures ServedOf(prefix, verb, prefix + FullPath(op, arg)) ==
            if verb == VerbOf(op) then Handled(op, if op.CreateOrder? then [] else [arg]) else NotAllowed(VerbOf(op))
  {
    FullPathFits(op, arg);
    ServedAt(prefix, verb, FullPath(op, arg), op, if op.CreateOrder? then [] else [arg]);
  }

  /** And nothing is served, or refused for its verb, at any other path. */
  lemma OnlyFourRoutes(prefix: string, verb: string, path: string)
    requires !ServedOf(prefix, verb, path).NotFound?
    ensures exists op, arg :: NoSlash(arg) && path == prefix + FullPath(op, arg)
  {
    var rest := path[|prefix|..];
    var (op, args) := Parse(rest).value;
    ParsesFits(op, rest, args);
    var arg := if op.CreateOrder? then "" else args[0];
    FullPathFits(op, arg);
    assert args == if op.CreateOrder? then [] else [arg];
    assert path == prefix + rest;
  }

  lemma ServedAt(prefix: string, verb: string, path: string, op: Operation, args: seq<string>)
    requires Fits(op, path, args)
    ensures ServedOf(prefix, verb, prefix + path) ==
            if verb == VerbOf(op) then Handled(op, args) else NotAllowed(VerbOf(op))
  {
    assert (prefix + path)[|prefix|..] == path;
    FitsParses(op, path, args);
  }

  // ---- The router's code ------------------------------------------------------

  method CutPrefix(prefix: string, path: string) returns (elem: string, ok: bool)
    ensures ok <==> prefix <= path
    ensures ok ==> elem == path[|prefix|..]
  {
    if prefix == "" {
      return path, true;
    }
    if !(prefix <= path) {
      return "", false;
    }
    return path[|prefix|..], true;
  }

  /** The router's comparison with a literal stretch of the path. */
  method CutLiteral(elem: string, literal: string) returns (rest: string, found: bool)
    ensures found <==> literal <= elem
    ensures rest == if found then elem[|literal|..] else elem
  {
    var l := |literal|;
    if |elem| >= l && elem[0..l] == literal {
      return elem[l..], true;
    }
    return elem, false;
  }

  method ServeHTTP(prefix: string, verb: string, path: string) returns (r: Served)
    ensures r == ServedOf(prefix, verb, path)
  {
    var elem, ok := CutPrefix(prefix, path);
    if !ok || |elem| == 0 {
      return NotFound;
    }
    ghost var whole := elem;
    var args := "";
    label search: {
      if elem[0] == '/' {
        var found;
        elem, found := CutLiteral(elem, ORDERS);
        if !found {
          break search;
        }
        assert Parse(whole) == ParseRest(elem);
        if |elem| == 0 {
          if verb == "POST" {
            return Handled(CreateOrder, []);
          } else {
            return NotAllowed("POST");
          }
        }
        if elem[0] == '/' {
          elem := elem[1..];
          SlashOrEndMeans(elem);
          var idx := SlashOrEnd(elem);
          args := elem[..idx];
          elem := elem[idx..];
          assert Parse(whole) == NamedBy(args, elem);
          if |elem| == 0 {
            if verb == "GET" {
              return Handled(GetOrder, [args]);
            } else {
              return NotAllowed("GET");
            }
          }
          if elem[0] == '/' {
            assert elem == "/" + elem[1..];
            elem := elem[1..];
            NamedByEnding(args, elem);
            if |elem| == 0 {
              break search;
            }
            if elem[0] == 'c' {
              elem, found := CutLiteral(elem, "cancel");
              if !found {
                break search;
              }
              if |elem| == 0 {
                if verb == "POST" {
                  return Handled(CancelOrder, [args]);
                } else {
                  return NotAllowed("POST");
                }
              }
            } else if elem[0] == 'p' {
              elem, found := CutLiteral(elem, "pay");
              if !found {
                break search;
              }
              if |elem| == 0 {
                if verb == "POST" {
                  return Handled(PayOrder, [args]);
                } else {
                  return NotAllowed("POST");
                }
              }
            }
          }
        }
      }
    }
    assert Parse(whole).None?;
    return NotFound;
  }

  method FindPath(prefix: string, verb: string, path: string) returns (r: Option<(Operation, seq<string>)>)
    ensures r == RouteOf(prefix, verb, path)
  {
    var elem, ok := CutPrefix(prefix, path);
    if !ok {
      return None;
    }
    ghost var whole := elem;
    var args := "";
    label search: {
      if |elem| == 0 {
        break search;
      }
      if elem[0] == '/' {
        var found;
        elem, found := CutLiteral(elem, ORDERS);
        if !found {
          break search;
        }
        assert Parse(whole) == ParseRest(elem);
        if |elem| == 0 {
          if verb == "POST" {
            return Some((CreateOrder, []));
          } else {
            return None;
          }
        }
        if elem[0] == '/' {
          elem := elem[1..];
          SlashOrEndMeans(elem);
          var idx := SlashOrEnd(elem);
          args := elem[..idx];
          elem := elem[idx..];
          assert Parse(whole) == NamedBy(args, elem);
          if |elem| == 0 {
            if verb == "GET" {
              return Some((GetOrder, [args]));
            } else {
              return None;
            }
          }
          if elem[0] == '/' {
            assert elem == "/" + elem[1..];
            elem := elem[1..];
            NamedByEnding(args, elem);
            if |elem| == 0 {
              break search;
            }
            if elem[0] == 'c' {
              elem, found := CutLiteral(elem, "cancel");
              if !found {
                break search;
              }
              if |elem| == 0 {
                if verb == "POST" {
                  return Some((CancelOrder, [args]));
                } else {
                  return None;
                }
              }
            } else if elem[0] == 'p' {
              elem, found := CutLiteral(elem, "pay");
              if !found {
                break search;
              }
              if |elem| == 0 {
                if verb == "POST" {
                  return Some((PayOrder, [args]));
                } else {
                  return None;
                }
              }
            }
          }
        }
      }
    }
    assert Parse(whole).None?;
    return None;
  }

  // ---- The client -------------------------------------------------------------

  function Joined(parts: seq<string>): string {
    if parts == [] then "" else parts[0] + Joined(parts[1..])
  }

  lemma {:induction false} JoinedSnoc(parts: seq<string>, last: string)
    ensures Joined(parts + [last]) == Joined(parts) + last
  {
    if parts == [] {
      assert [last][1..] == [];
    } else {
      assert (parts + [last])[1..] == parts[1..] + [last];
      JoinedSnoc(parts[1..], last);
    }
  }

  method AddPathParts(base: string, parts: array<string>) returns (path: string)
    ensures path == base + Joined(parts[..])
  {
    path := base;
    for i := 0 to parts.Length
      invariant path == base + Joined(parts[..i])
    {
      JoinedSnoc(parts[..i], parts[i]);
      assert parts[..i + 1] == parts[..i] + [parts[i]];
      path := path + parts[i];
    }
    assert parts[..parts.Length] == parts[..];
  }

  /** The path the client requests for an operation, after the server's base path. */
  method BuildPath(base: string, op: Operation, uuid: string) returns (path: string)
    requires Domain.UuidText(uuid)
    ensures FitsUnder(base, op, path, if op.CreateOrder? then [] else [uuid])
  {
    var parts := new string[if op.CreateOrder? then 1 else if op.GetOrder? then 2 else 3];
    if op.CreateOrder? {
      parts[0] := ORDERS;
      assert parts[..] == [ORDERS];
    } else {
      parts[0] := ORDERS + "/";
      parts[1] := uuid;
      if op.CancelOrder? {
        parts[2] := "/cancel";
      } else if op.PayOrder? {
        parts[2] := "/pay";
      }
      assert parts[..] == if op.GetOrder? then [ORDERS + "/", uuid] else [ORDERS + "/", uuid, Tail(op)];
    }
    path := AddPathParts(base, parts);
    JoinedParts(op, uuid);
    assert path[|base|..] == Joined(parts[..]);
  }

  lemma JoinedParts(op: Operation, uuid: string)
    ensures Joined([ORDERS]) == ORDERS
    ensures Joined([ORDERS + "/", uuid]) == ORDERS + "/" + uuid
    ensures Joined([ORDERS + "/", uuid, Tail(op)]) == ORDERS + "/" + uuid + Tail(op)
  {
    JoinedSnoc([], ORDERS);
    JoinedSnoc([], ORDERS + "/");
    JoinedSnoc([ORDERS + "/"], uuid);
    JoinedSnoc([ORDERS + "/", uuid], Tail(op));
    assert [] + [ORDERS] == [ORDERS] && [] + [ORDERS + "/"] == [ORDERS + "/"];
    assert [ORDERS + "/"] + [uuid] == [ORDERS + "/", uuid];
    assert [ORDERS + "/", uuid] + [Tail(op)] == [ORDERS + "/", uuid, Tail(op)];
  }

  /** Round trip: what the client asks for is what the server handles, and what FindPath
      finds, with the same argument. */
  method ClientToServer(base: string, op: Operation, uuid: string)
    returns (served: Served, found: Option<(Operation, seq<string>)>)
    requires Domain.UuidText(uuid)
    ensures served == Handled(op, if op.CreateOrder? then [] else [uuid])
    ensures found == Some((op, if op.CreateOrder? then [] else [uuid]))
  {
    var path := BuildPath(base, op, uuid);
    served := ServeHTTP(base, VerbOf(op), path);
    found := FindPath(base, VerbOf(op), path);
    ServedMeansTemplates(base, VerbOf(op), path);
  }
}
