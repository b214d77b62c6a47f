/** Caddy's configuration tree: path operations, the object-ID index, and the change
    transaction that keeps tree, encoded copy, index and running config together. */
module ConfigTree {
  import opened Options
  import opened Decimal

  /** Numbers are kept as their text. */
  datatype Json = Null | Bool(b: bool) | Num(text: string) | Str(s: string) | Arr(items: seq<Json>) | Obj(fields: map<string, Json>)

  datatype Method = Get | Post | Put | Patch | Delete | Other

  /** The tree after an access, and whether the access succeeded. Accesses edit in place,
      so the tree is meaningful on failure too. */
  datatype Outcome = Outcome(tree: Json, ok: bool)

  // ----- Path operations -----

  /** POST to a list: append the body, or with a trailing "..." its elements. */
  function Append(arr: seq<Json>, body: Json, spread: bool): Option<seq<Json>> {
    if !spread then Some(arr + [body])
    else if body.Arr? then Some(arr + body.items)
    else None
  }

  /** An operation on an element of a list that is itself a field of an object. */
  function ElementOp(m: Method, arr: seq<Json>, idx: string, body: Json, spread: bool): Option<seq<Json>> {
    if m.Post? then Append(arr, body, spread)
    else
      var parsed := ParseCanonicalIndex(idx);
      if parsed.None? || parsed.value < 0 || parsed.value > |arr| || (!m.Put? && parsed.value == |arr|) then None
      else
        var i := parsed.value;
        match m
        case Get => Some(arr)
        case Put => Some(arr[..i] + [body] + arr[i..])
        case Patch => Some(arr[i := body])
        case Delete => Some(arr[..i] + arr[i + 1..])
        case _ => None
  }

  /** An operation on a field of an object. */
  function FieldOp(m: Method, fields: map<string, Json>, key: string, body: Json, spread: bool): Option<map<string, Json>> {
    match m
    case Get => Some(fields)
    case Post =>
      if key in fields && fields[key].Arr? then
        var arr := Append(fields[key].items, body, spread);
        if arr.None? then None else Some(fields[key := Arr(arr.value)])
      else Some(fields[key := body])
    case Put => if key in fields then None else Some(fields[key := body])
    case Patch => if key in fields then Some(fields[key := body]) else None
    case Delete => if key in fields then Some(fields - {key}) else None
    case Other => None
  }

  function Child(fields: map<string, Json>, key: string): Json {
    if key in fields then fields[key] else Null
  }

  /** Walks to `path` and performs the operation, creating missing objects on the way
      when PUTting. */
  function Access(m: Method, t: Json, path: seq<string>, body: Json, spread: bool): Outcome
    decreases |path|
  {
    if path == [] then Outcome(t, true)
    else
      match t
      case Obj(fields) =>
        if |path| == 2 && Child(fields, path[0]).Arr? then
          var arr := ElementOp(m, fields[path[0]].items, path[1], body, spread);
          if arr.None? then Outcome(t, false) else Outcome(Obj(fields[path[0] := Arr(arr.value)]), true)
        else if |path| == 1 then
          var fields' := FieldOp(m, fields, path[0], body, spread);
          if fields'.None? then Outcome(t, false) else Outcome(Obj(fields'.value), true)
        else if Child(fields, path[0]).Null? && m.Put? then
          var r := Access(m, Obj(map[]), path[1..], body, spread);
          Outcome(Obj(fields[path[0] := r.tree]), r.ok)
        else if path[0] in fields then
          var r := Access(m, fields[path[0]], path[1..], body, spread);
          Outcome(Obj(fields[path[0] := r.tree]), r.ok)
        else
          Outcome(t, false)
      case Arr(items) =>
        var i := ParseCanonicalIndex(path[0]);
        if i.None? || i.value < 0 || i.value >= |items| then Outcome(t, false)
        else
          var r := Access(m, items[i.value], path[1..], body, spread);
          Outcome(Arr(items[i.value := r.tree]), r.ok)
      case _ => Outcome(t, false)
  }

  /** Where the walk came from: the list or object around its pointer. */
  datatype Crumb = InObject(fields: map<string, Json>, key: string) | InList(items: seq<Json>, i: nat)

  function Around(c: Crumb, t: Json): Json {
    match c
    case InObject(fields, key) => Obj(fields[key := t])
    case InList(items, i) => if i < |items| then Arr(items[i := t]) else t
  }

  /** The whole tree around the pointer. */
  function Plug(crumbs: seq<Crumb>, t: Json): Json {
    if crumbs == [] then t else Plug(crumbs[..|crumbs| - 1], Around(crumbs[|crumbs| - 1], t))
  }

  lemma PlugStep(crumbs: seq<Crumb>, c: Crumb, t: Json)
    ensures Plug(crumbs + [c], t) == Plug(crumbs, Around(c, t))
  {
    assert (crumbs + [c])[..|crumbs|] == crumbs;
  }

  /** The fields with the object that PUT creates under a missing or null key. */
  function Made(m: Method, fields: map<string, Json>, key: string): map<string, Json> {
    if Child(fields, key).Null? && m.Put? then fields[key := Obj(map[])] else fields
  }

  lemma Descend(m: Method, fields: map<string, Json>, path: seq<string>, body: Json, spread: bool)
    requires |path| > 1 && !(|path| == 2 && Child(fields, path[0]).Arr?) && path[0] in Made(m, fields, path[0])
    ensures var made := Made(m, fields, path[0]);
            var r := Access(m, made[path[0]], path[1..], body, spread);
            Access(m, Obj(fields), path, body, spread) == Outcome(Around(InObject(made, path[0]), r.tree), r.ok)
  {
    var made := Made(m, fields, path[0]);
    var r := Access(m, made[path[0]], path[1..], body, spread);
    assert made[path[0] := r.tree] == fields[path[0] := r.tree];
  }

  /** One turn of the loop: the operation if the walk has arrived, or the next pointer. */
  datatype Turn = Arrived(out: Outcome) | Further(crumb: Crumb, next: Json)

  method TurnAt(m: Method, ptr: Json, rest: seq<string>, body: Json, spread: bool) returns (turn: Turn)
    requires rest != []
    ensures turn.Arrived? ==> Access(m, ptr, rest, body, spread) == turn.out
    ensures turn.Further? ==>
              var r := Access(m, turn.next, rest[1..], body, spread);
              Access(m, ptr, rest, body, spread) == Outcome(Around(turn.crumb, r.tree), r.ok)
  {
    if ptr.Obj? {
      turn := TurnAtObject(m, ptr.fields, rest, body, spread);
    } else if ptr.Arr? {
      turn := TurnAtList(m, ptr.items, rest, body, spread);
    } else {
      turn := Arrived(Outcome(ptr, false));
    }
  }

  method TurnAtList(m: Method, items: seq<Json>, rest: seq<string>, body: Json, spread: bool) returns (turn: Turn)
    requires rest != []
    ensures turn.Arrived? ==> Access(m, Arr(items), rest, body, spread) == turn.out
    ensures turn.Further? ==>
              var r := Access(m, turn.next, rest[1..], body, spread);
              Access(m, Arr(items), rest, body, spread) == Outcome(Around(turn.crumb, r.tree), r.ok)
  {
    var at := ParseCanonicalIndex(rest[0]);
    if at.None? || at.value < 0 || at.value >= |items| { return Arrived(Outcome(Arr(items), false)); }
    turn := Further(InList(items, at.value), items[at.value]);
  }

  lemma AccessObject(m: Method, fields: map<string, Json>, path: seq<string>, body: Json, spread: bool)
    requires path != []
    ensures var key, out := path[0], Access(m, Obj(fields), path, body, spread);
            if |path| == 2 && Child(fields, key).Arr? then
              var arr := ElementOp(m, fields[key].items, path[1], body, spread);
              out == if arr.None? then Outcome(Obj(fields), false) else Outcome(Obj(fields[key := Arr(arr.value)]), true)
            else if |path| == 1 then
              var after := FieldOp(m, fields, key, body, spread);
              out == if after.None? then Outcome(Obj(fields), false) else Outcome(Obj(after.value), true)
            else key !in Made(m, fields, key) ==> out == Outcome(Obj(fields), false)
  {
    hide ElementOp, FieldOp;
  }

  method TurnAtObject(m: Method, fields: map<string, Json>, rest: seq<string>, body: Json, spread: bool) returns (turn: Turn)
    requires rest != []
    ensures turn.Arrived? ==> Access(m, Obj(fields), rest, body, spread) == turn.out
    ensures turn.Further? ==>
              var r := Access(m, turn.next, rest[1..], body, spread);
              Access(m, Obj(fields), rest, body, spread) == Outcome(Around(turn.crumb, r.tree), r.ok)
  {
    AccessObject(m, fields, rest, body, spread);
    hide Access;
    var part := rest[0];
    turn := Arrived(Outcome(Obj(fields), false));
    if |rest| == 2 && Child(fields, part).Arr? {
      var arr := ElementOp(m, fields[part].items, rest[1], body, spread);
      if arr.Some? { turn := Arrived(Outcome(Obj(fields[part := Arr(arr.value)]), true)); }
    } else if |rest| == 1 {
      var after := FieldOp(m, fields, part, body, spread);
      if after.Some? { turn := Arrived(Outcome(Obj(after.value), true)); }
    } else {
      var made := Made(m, fields, part);
      if part in made {
        Descend(m, fields, rest, body, spread);
        turn := Further(InObject(made, part), made[part]);
      }
    }
  }

  /** The traversal as a loop that moves a pointer down the tree and edits what it points at;
      objects that PUT creates are put in place before the walk goes on. */
  method Traverse(m: Method, root: Json, path: seq<string>, body: Json, spread: bool) returns (out: Outcome)
    ensures out == Access(m, root, path, body, spread)
  {
    var ptr, crumbs := root, [];
    for i := 0 to |path|
      invariant Plug(crumbs, Access(m, ptr, path[i..], body, spread).tree) == Access(m, root, path, body, spread).tree
      invariant Access(m, ptr, path[i..], body, spread).ok == Access(m, root, path, body, spread).ok
    {
      var turn := TurnAt(m, ptr, path[i..], body, spread);
      if turn.Arrived? { return Outcome(Plug(crumbs, turn.out.tree), turn.out.ok); }
      assert path[i..][1..] == path[i + 1..];
      PlugStep(crumbs, turn.crumb, Access(m, turn.next, path[i + 1..], body, spread).tree);
      crumbs, ptr := crumbs + [turn.crumb], turn.next;
    }
    out := Outcome(Plug(crumbs, ptr), true);
  }

  /** Nothing can go wrong below an object that PUT has just created. */
  lemma {:induction false} PutIntoNewObject(path: seq<string>, body: Json, spread: bool)
    ensures Access(Put, Obj(map[]), path, body, spread).ok
    decreases |path|
  {
    if |path| > 1 {
      PutIntoNewObject(path[1..], body, spread);
    }
  }

  lemma {:induction false} ErrorKeepsObject(m: Method, t: Json, path: seq<string>, body: Json, spread: bool)
    requires t.Obj?
    ensures !Access(m, t, path, body, spread).ok ==> Access(m, t, path, body, spread).tree == t
    decreases |path|, 0
  {
    if |path| > 1 && !(|path| == 2 && Child(t.fields, path[0]).Arr?) {
      if Child(t.fields, path[0]).Null? && m.Put? {
        PutIntoNewObject(path[1..], body, spread);
      } else if path[0] in t.fields {
        ErrorKeepsTree(m, t.fields[path[0]], path[1..], body, spread);
      }
    }
  }

  /** A path operation that returns an error has left the tree as it was, including the
      objects PUT creates on its way. */
  lemma {:induction false} ErrorKeepsTree(m: Method, t: Json, path: seq<string>, body: Json, spread: bool)
    ensures !Access(m, t, path, body, spread).ok ==> Access(m, t, path, body, spread).tree == t
    decreases |path|, 1
  {
    if t.Obj? {
      ErrorKeepsObject(m, t, path, body, spread);
    } else if path != [] && t.Arr? {
      var i := ParseCanonicalIndex(path[0]);
      if i.Some? && 0 <= i.value < |t.items| {
        ErrorKeepsTree(m, t.items[i.value], path[1..], body, spread);
      }
    }
  }

  /** Reading changes nothing. */
  lemma {:induction false} GetKeepsTree(t: Json, path: seq<string>, body: Json, spread: bool)
    ensures Access(Get, t, path, body, spread).tree == t
    decreases |path|
  {
    if path != [] && t.Obj? && |path| > 1 && path[0] in t.fields {
      GetKeepsTree(t.fields[path[0]], path[1..], body, spread);
    } else if path != [] && t.Arr? {
      var i := ParseCanonicalIndex(path[0]);
      if i.Some? && 0 <= i.value < |t.items| {
        GetKeepsTree(t.items[i.value], path[1..], body, spread);
      }
    }
  }

  // ----- What a write does -----

  /** The value at a path. */
  function Lookup(t: Json, path: seq<string>): Option<Json>
    decreases |path|
  {
    if path == [] then Some(t)
    else
      match t
      case Obj(fields) => if path[0] in fields then Lookup(fields[path[0]], path[1..]) else None
      case Arr(items) =>
        var i := ParseCanonicalIndex(path[0]);
        if i.Some? && 0 <= i.value < |items| then Lookup(items[i.value], path[1..]) else None
      case _ => None
  }

  /** The last part names a field or an element of a field, not an element of a list that
      is itself an element: there the traversal performs no operation. */
  predicate Addressable(t: Json, path: seq<string>)
    decreases |path|
  {
    if path == [] then false
    else if t.Obj? then
      |path| == 1 || (|path| == 2 && Child(t.fields, path[0]).Arr?) || path[0] !in t.fields ||
      Addressable(t.fields[path[0]], path[1..]) || t.fields[path[0]].Null?
    else if t.Arr? then
      var i := ParseCanonicalIndex(path[0]);
      |path| > 1 && i.Some? && 0 <= i.value < |t.items| && Addressable(t.items[i.value], path[1..])
    else false
  }

  /** After a successful PUT or PATCH the path holds the body. */
  lemma {:induction false} WriteThenRead(m: Method, t: Json, path: seq<string>, body: Json, spread: bool)
    requires m.Put? || m.Patch?
    requires Addressable(t, path) && Access(m, t, path, body, spread).ok
    ensures Lookup(Access(m, t, path, body, spread).tree, path) == Some(body)
    decreases |path|
  {
    var t' := Access(m, t, path, body, spread).tree;
    if t.Obj? {
      if |path| == 2 && Child(t.fields, path[0]).Arr? {
        var i := ParseCanonicalIndex(path[1]).value;
        assert t'.fields[path[0]].items[i] == body;
        assert path[1..] == [path[1]] && path[1..][1..] == [];
        assert Lookup(t'.fields[path[0]], path[1..]) == Lookup(body, []);
      } else if |path| == 1 {
        assert path[1..] == [];
      } else if Child(t.fields, path[0]).Null? && m.Put? {
        WriteThenRead(m, Obj(map[]), path[1..], body, spread);
      } else {
        WriteThenRead(m, t.fields[path[0]], path[1..], body, spread);
      }
    } else {
      var i := ParseCanonicalIndex(path[0]).value;
      WriteThenRead(m, t.items[i], path[1..], body, spread);
    }
  }

  /** What a path ends at: a field of an object, an element of a list that is a field, or
      neither, where the traversal performs no operation or fails. */
  datatype Target = Field | Element | Neither

  function TargetOf(t: Json, path: seq<string>): Target
    decreases |path|
  {
    if path == [] then Neither
    else
      match t
      case Obj(fields) =>
        if |path| == 2 && Child(fields, path[0]).Arr? then Element
        else if |path| == 1 then Field
        else if path[0] in fields then TargetOf(fields[path[0]], path[1..])
        else Neither
      case Arr(items) =>
        var i := ParseCanonicalIndex(path[0]);
        if i.Some? && 0 <= i.value < |items| then TargetOf(items[i.value], path[1..]) else Neither
      case _ => Neither
  }

  /** What the operation makes of the object or list that holds the target. */
  function Holder(m: Method, parent: Json, part: string, body: Json, spread: bool): Option<Json> {
    match parent
    case Obj(fields) =>
      var after := FieldOp(m, fields, part, body, spread);
      if after.Some? then Some(Obj(after.value)) else None
    case Arr(items) =>
      var after := ElementOp(m, items, part, body, spread);
      if after.Some? then Some(Arr(after.value)) else None
    case _ => None
  }

  lemma WritesHere(m: Method, fields: map<string, Json>, path: seq<string>, body: Json, spread: bool) returns (parent: Json)
    requires |path| == 1 || (|path| == 2 && Child(fields, path[0]).Arr?)
    ensures var t, front, after := Obj(fields), path[..|path| - 1], Holder(m, parent, path[|path| - 1], body, spread);
            && Lookup(t, front) == Some(parent)
            && (if |path| == 1 then parent.Obj? else parent.Arr?)
            && (Access(m, t, path, body, spread).ok <==> after.Some?)
            && (after.Some? ==> Lookup(Access(m, t, path, body, spread).tree, front) == after)
  {
    hide FieldOp, ElementOp;
    parent := if |path| == 1 then Obj(fields) else fields[path[0]];
    if |path| == 2 { assert path[..1][1..] == []; }
  }

  /** An operation changes the holder of its target in place, as it changes that object or list
      alone, and fails exactly if it fails there. */
  lemma {:induction false} WritesTheHolder(m: Method, t: Json, path: seq<string>, body: Json, spread: bool) returns (parent: Json)
    requires !TargetOf(t, path).Neither?
    ensures var front, after := path[..|path| - 1], Holder(m, parent, path[|path| - 1], body, spread);
            && Lookup(t, front) == Some(parent)
            && (if TargetOf(t, path).Field? then parent.Obj? else parent.Arr?)
            && (Access(m, t, path, body, spread).ok <==> after.Some?)
            && (after.Some? ==> Lookup(Access(m, t, path, body, spread).tree, front) == after)
    decreases |path|
  {
    hide FieldOp, ElementOp, ParseCanonicalIndex, Holder;
    var n := |path| - 1;
    if t.Obj? && (n == 0 || (n == 1 && Child(t.fields, path[0]).Arr?)) {
      parent := WritesHere(m, t.fields, path, body, spread);
    } else if t.Obj? {
      assert !t.fields[path[0]].Null?;
      Descend(m, t.fields, path, body, spread);
      parent := WritesTheHolder(m, t.fields[path[0]], path[1..], body, spread);
      assert path[..n][1..] == path[1..][..n - 1];
    } else {
      var i := ParseCanonicalIndex(path[0]).value;
      parent := WritesTheHolder(m, t.items[i], path[1..], body, spread);
      assert path[..n][1..] == path[1..][..n - 1];
    }
  }

  lemma {:induction false} LookupLast(t: Json, path: seq<string>, parent: Json)
    requires path != [] && Lookup(t, path[..|path| - 1]) == Some(parent)
    ensures Lookup(t, path) == Lookup(parent, [path[|path| - 1]])
    decreases |path|
  {
    var n := |path| - 1;
    if n > 0 {
      assert path[..n][1..] == path[1..][..n - 1];
      if t.Obj? {
        LookupLast(t.fields[path[0]], path[1..], parent);
      } else {
        LookupLast(t.items[ParseCanonicalIndex(path[0]).value], path[1..], parent);
      }
    }
  }

  /** When an operation on a field works: PUT needs it absent, PATCH and DELETE need it there. */
  lemma FieldSucceeds(m: Method, t: Json, path: seq<string>, body: Json, spread: bool)
    requires TargetOf(t, path).Field?
    ensures var was := Lookup(t, path);
            Access(m, t, path, body, spread).ok <==>
            match m
            case Get => true
            case Post => was.Some? && was.value.Arr? && spread ==> body.Arr?
            case Put => was.None?
            case Patch => was.Some?
            case Delete => was.Some?
            case Other => false
  {
    var parent := WritesTheHolder(m, t, path, body, spread);
    LookupLast(t, path, parent);
  }

  /** When an operation on an element works: PUT also takes the index after the last one, and POST any. */
  lemma ElementSucceeds(m: Method, t: Json, path: seq<string>, body: Json, spread: bool) returns (items: seq<Json>)
    requires TargetOf(t, path).Element?
    ensures Lookup(t, path[..|path| - 1]) == Some(Arr(items))
    ensures Access(m, t, path, body, spread).ok <==>
            match m
            case Post => spread ==> body.Arr?
            case Put => exists i | 0 <= i <= |items| && IsInt64(i) :: path[|path| - 1] == Itoa(i)
            case Other => false
            case _ => Lookup(t, path).Some?
  {
    var parent := WritesTheHolder(m, t, path, body, spread);
    items := parent.items;
    LookupLast(t, path, parent);
    hide Access, Lookup, TargetOf, ElementOp, ParseCanonicalIndex;
    CanChangeElement(m, items, path[|path| - 1], body, spread);
  }

  lemma CanChangeElement(m: Method, items: seq<Json>, part: string, body: Json, spread: bool)
    ensures ElementOp(m, items, part, body, spread).Some? <==>
            match m
            case Post => spread ==> body.Arr?
            case Put => exists i | 0 <= i <= |items| && IsInt64(i) :: part == Itoa(i)
            case Other => false
            case _ => Lookup(Arr(items), [part]).Some?
  {
    hide Itoa, ParseCanonicalIndex;
    var at := ParseCanonicalIndex(part);
    if at.Some? { CanonicalIndex(part, at.value); }
    if i :| 0 <= i <= |items| && IsInt64(i) && part == Itoa(i) { CanonicalIndex(part, i); }
    assert [part][1..] == [];
  }

  /** PUT finds or makes the way to any place that is not there yet. */
  lemma {:induction false} PutMakesTheWay(t: Json, path: seq<string>, body: Json, spread: bool)
    requires Addressable(t, path) && TargetOf(t, path).Neither?
    ensures Access(Put, t, path, body, spread).ok
    decreases |path|
  {
    if t.Obj? {
      if Child(t.fields, path[0]).Null? {
        PutIntoNewObject(path[1..], body, spread);
      } else {
        PutMakesTheWay(t.fields[path[0]], path[1..], body, spread);
      }
    } else {
      PutMakesTheWay(t.items[ParseCanonicalIndex(path[0]).value], path[1..], body, spread);
    }
  }

  /** A deleted field is gone. */
  lemma DeletedField(t: Json, path: seq<string>, body: Json, spread: bool)
    requires TargetOf(t, path).Field? && Access(Delete, t, path, body, spread).ok
    ensures Lookup(Access(Delete, t, path, body, spread).tree, path) == None
  {
    var parent := WritesTheHolder(Delete, t, path, body, spread);
    var after := Holder(Delete, parent, path[|path| - 1], body, spread).value;
    LookupLast(Access(Delete, t, path, body, spread).tree, path, after);
  }

  /** What becomes of a list: PUT inserts the body before an element and moves the rest down,
      DELETE takes an element out and moves the rest up, PATCH replaces one. */
  lemma ChangedElement(m: Method, t: Json, path: seq<string>, body: Json, spread: bool) returns (items: seq<Json>, i: nat)
    requires m.Put? || m.Patch? || m.Delete?
    requires TargetOf(t, path).Element? && Access(m, t, path, body, spread).ok
    ensures i <= |items| && path[|path| - 1] == Itoa(i) && (m.Put? || i < |items|)
    ensures Lookup(t, path[..|path| - 1]) == Some(Arr(items))
    ensures var after := if m.Put? then items[..i] + [body] + items[i..]
                         else if m.Patch? then items[i := body]
                         else items[..i] + items[i + 1..];
            Lookup(Access(m, t, path, body, spread).tree, path[..|path| - 1]) == Some(Arr(after))
  {
    var parent := WritesTheHolder(m, t, path, body, spread);
    var part := path[|path| - 1];
    items, i := parent.items, ParseCanonicalIndex(part).value;
    CanonicalIndex(part, i);
  }

  /** POST to a list by way of any of its elements appends too. */
  lemma PostedElement(t: Json, path: seq<string>, body: Json, spread: bool) returns (items: seq<Json>)
    requires TargetOf(t, path).Element? && Access(Post, t, path, body, spread).ok
    ensures Lookup(t, path[..|path| - 1]) == Some(Arr(items)) && (spread ==> body.Arr?)
    ensures Lookup(Access(Post, t, path, body, spread).tree, path[..|path| - 1]) ==
            Some(Arr(items + if spread then body.items else [body]))
  {
    var parent := WritesTheHolder(Post, t, path, body, spread);
    items := parent.items;
  }

  /** POST appends the body to a list, or its elements with a trailing "...", and sets any other field. */
  lemma PostedField(t: Json, path: seq<string>, body: Json, spread: bool)
    requires TargetOf(t, path).Field? && Access(Post, t, path, body, spread).ok
    ensures var was, now := Lookup(t, path), Lookup(Access(Post, t, path, body, spread).tree, path);
            if was.Some? && was.value.Arr?
            then (spread ==> body.Arr?) && now == Some(Arr(was.value.items + if spread then body.items else [body]))
            else now == Some(body)
  {
    var parent := WritesTheHolder(Post, t, path, body, spread);
    var part := path[|path| - 1];
    LookupLast(t, path, parent);
    LookupLast(Access(Post, t, path, body, spread).tree, path, Holder(Post, parent, part, body, spread).value);
  }

  /** Two paths part: at an object key; at an index, on the way; or, for PATCH, at the index itself. */
  predicate Apart(m: Method, t: Json, p: seq<string>, q: seq<string>)
    decreases |p|
  {
    p != [] && q != [] &&
    if t.Obj? then
      p[0] != q[0] ||
      (p[0] in t.fields &&
       if |p| == 2 && t.fields[p[0]].Arr? then m.Patch? && |q| >= 2 && p[1] != q[1]
       else Apart(m, t.fields[p[0]], p[1..], q[1..]))
    else if t.Arr? then
      var i := ParseCanonicalIndex(p[0]);
      |p| > 1 && i.Some? && 0 <= i.value < |t.items| && (p[0] != q[0] || Apart(m, t.items[i.value], p[1..], q[1..]))
    else false
  }

  lemma KeyWritesNothingElse(m: Method, fields: map<string, Json>, p: seq<string>, key: string, body: Json, spread: bool)
    requires p == [] || p[0] != key
    ensures var t' := Access(m, Obj(fields), p, body, spread).tree;
            t'.Obj? && (key in t'.fields <==> key in fields) && (key in fields ==> t'.fields[key] == fields[key])
  {
  }

  lemma IndexesDiffer(a: string, b: string)
    requires a != b && ParseCanonicalIndex(a).Some?
    ensures ParseCanonicalIndex(b) != ParseCanonicalIndex(a)
  {
    CanonicalIndex(a, ParseCanonicalIndex(a).value);
    CanonicalIndex(b, ParseCanonicalIndex(a).value);
  }

  lemma PatchWritesNothingElse(fields: map<string, Json>, p: seq<string>, q: seq<string>, body: Json, spread: bool)
    requires |p| == 2 && p[0] in fields && fields[p[0]].Arr? && |q| >= 2 && p[0] == q[0] && p[1] != q[1]
    ensures Lookup(Access(Patch, Obj(fields), p, body, spread).tree, q) == Lookup(Obj(fields), q)
  {
    if Access(Patch, Obj(fields), p, body, spread).ok {
      IndexesDiffer(p[1], q[1]);
      assert q[1..][0] == q[1];
    }
  }

  /** Whatever the operation, paths that part from its path keep their values. */
  lemma {:induction false} WritesNothingElse(m: Method, t: Json, p: seq<string>, q: seq<string>, body: Json, spread: bool)
    requires Apart(m, t, p, q)
    ensures Lookup(Access(m, t, p, body, spread).tree, q) == Lookup(t, q)
    decreases |p|
  {
    hide FieldOp, ElementOp, ParseCanonicalIndex;
    if t.Arr? {
      var i := ParseCanonicalIndex(p[0]).value;
      if p[0] != q[0] {
        IndexesDiffer(p[0], q[0]);
      } else {
        WritesNothingElse(m, t.items[i], p[1..], q[1..], body, spread);
      }
    } else if p[0] != q[0] {
      KeyWritesNothingElse(m, t.fields, p, q[0], body, spread);
    } else if |p| == 2 && t.fields[p[0]].Arr? {
      PatchWritesNothingElse(t.fields, p, q, body, spread);
    } else {
      var child := t.fields[p[0]];
      assert |p| > 1 && !child.Null?;
      Descend(m, t.fields, p, body, spread);
      WritesNothingElse(m, child, p[1..], q[1..], body, spread);
    }
  }

  // ----- Object IDs -----

  datatype Step = Key(key: string) | Index(i: nat)

  type Where = seq<Step>

  const ID_KEY := "@id"
  const CONFIG_KEY := "config"

  /** An ID may be a string or a number. */
  predicate IsId(v: Json) { v.Str? || v.Num? }

  function IdText(v: Json): string
    requires IsId(v)
  {
    if v.Str? then v.s else v.text
  }

  /** Every ID field is a string or a number. */
  predicate IdsWellFormed(t: Json) {
    match t
    case Obj(fields) =>
      forall k | k in fields :: if k == ID_KEY then IsId(fields[k]) else IdsWellFormed(fields[k])
    case Arr(items) => forall i | 0 <= i < |items| :: IdsWellFormed(items[i])
    case _ => true
  }

  type Tagged = set<(string, Where)>

  /** The tags of an object that come from the fields `ks`. */
  ghost function FieldTags(t: Json, ks: set<string>, at: Where): Tagged
    requires t.Obj? && ks <= t.fields.Keys
    decreases t, 0
  {
    (if ID_KEY in ks && IsId(t.fields[ID_KEY]) then {(IdText(t.fields[ID_KEY]), at)} else {})
    + set k, o | k in ks && k != ID_KEY && o in Tags(t.fields[k], at + [Key(k)]) :: o
  }

  /** The tags of the first `n` elements of a list. */
  ghost function ItemTags(t: Json, n: nat, at: Where): Tagged
    requires t.Arr? && n <= |t.items|
    decreases t, 0
  {
    set i, o | 0 <= i < n && o in Tags(t.items[i], at + [Index(i)]) :: o
  }

  /** The tagged objects of a tree at `at`: their IDs and places. */
  ghost function Tags(t: Json, at: Where): Tagged
    decreases t, 1
  {
    match t
    case Obj(fields) => FieldTags(t, fields.Keys, at)
    case Arr(items) => ItemTags(t, |items|, at)
    case _ => {}
  }

  /** An index as the set of its entries. */
  ghost function Pairs(index: map<string, Where>): Tagged {
    set id | id in index :: (id, index[id])
  }

  ghost predicate Unique(tags: Tagged) {
    forall a, b | a in tags && b in tags && a.0 == b.0 :: a == b
  }

  ghost predicate Free(tags: Tagged, index: map<string, Where>) {
    forall a | a in tags :: a.0 !in index
  }

  /** A tree can be indexed next to `index`. */
  ghost predicate Indexable(t: Json, at: Where, index: map<string, Where>) {
    IdsWellFormed(t) && Unique(Tags(t, at)) && Free(Tags(t, at), index)
  }

  /** The part of a tree at the end of a walk that never enters an ID field. */
  function At(t: Json, steps: Where): Option<Json>
    decreases |steps|
  {
    if steps == [] then Some(t)
    else
      match steps[0]
      case Key(k) => if t.Obj? && k != ID_KEY && k in t.fields then At(t.fields[k], steps[1..]) else None
      case Index(i) => if t.Arr? && i < |t.items| then At(t.items[i], steps[1..]) else None
  }

  /** There is an object with ID `id` at the end of the walk. */
  predicate HasId(t: Json, steps: Where, id: string) {
    var o := At(t, steps);
    o.Some? && o.value.Obj? && ID_KEY in o.value.fields && IsId(o.value.fields[ID_KEY]) &&
    IdText(o.value.fields[ID_KEY]) == id
  }

  /** The tags are exactly the objects that carry an ID, with the walks that lead to them. */
  lemma {:induction false} TagsAreIds(t: Json, at: Where, steps: Where, id: string)
    ensures (id, at + steps) in Tags(t, at) <==> HasId(t, steps, id)
    decreases |steps|
  {
    if steps == [] {
      assert at + steps == at;
      if t.Obj? {
        forall k | k in t.fields ensures (id, at) !in Tags(t.fields[k], at + [Key(k)]) {
          TagStep(t.fields[k], Key(k), at, (id, at));
        }
      } else if t.Arr? {
        forall i | 0 <= i < |t.items| ensures (id, at) !in Tags(t.items[i], at + [Index(i)]) {
          TagStep(t.items[i], Index(i), at, (id, at));
        }
      }
    } else {
      var o := (id, at + steps);
      assert o.1[|at|] == steps[0] && o.1 != at;
      assert at + steps == (at + [steps[0]]) + steps[1..];
      if t.Obj? {
        forall k | k in t.fields && Key(k) != steps[0] ensures o !in Tags(t.fields[k], at + [Key(k)]) {
          TagStep(t.fields[k], Key(k), at, o);
        }
        if steps[0].Key? && steps[0].key in t.fields {
          TagsAreIds(t.fields[steps[0].key], at + [steps[0]], steps[1..], id);
        }
      } else if t.Arr? {
        forall i | 0 <= i < |t.items| && Index(i) != steps[0] ensures o !in Tags(t.items[i], at + [Index(i)]) {
          TagStep(t.items[i], Index(i), at, o);
        }
        if steps[0].Index? && steps[0].i < |t.items| {
          TagsAreIds(t.items[steps[0].i], at + [steps[0]], steps[1..], id);
        }
      }
    }
  }

  /** Tags of a tree at `at` lie at or below `at`. */
  lemma {:induction false} TagsBelow(t: Json, at: Where, o: (string, Where))
    requires o in Tags(t, at)
    ensures at <= o.1
    ensures !t.Obj? ==> at < o.1
  {
    match t
    case Obj(fields) =>
      if o.1 != at {
        var k :| k in fields && k != ID_KEY && o in Tags(fields[k], at + [Key(k)]);
        TagsBelow(fields[k], at + [Key(k)], o);
      }
    case Arr(items) =>
      var i :| 0 <= i < |items| && o in Tags(items[i], at + [Index(i)]);
      TagsBelow(items[i], at + [Index(i)], o);
    case _ =>
  }

  lemma TagStep(t: Json, s: Step, at: Where, o: (string, Where))
    ensures o in Tags(t, at + [s]) ==> |o.1| > |at| && o.1[|at|] == s
  {
    if o in Tags(t, at + [s]) {
      TagsBelow(t, at + [s], o);
      assert o.1[|at|] == (at + [s])[|at|];
    }
  }

  /** Subtrees reached by different steps have no tag in common, nor with their parent. */
  lemma TagsApart(t1: Json, s1: Step, t2: Json, s2: Step, at: Where)
    requires s1 != s2
    ensures Tags(t1, at + [s1]) !! Tags(t2, at + [s2])
    ensures forall o | o in Tags(t1, at + [s1]) :: o.1 != at
  {
    forall o ensures o in Tags(t1, at + [s1]) ==> o.1 != at && o !in Tags(t2, at + [s2]) {
      TagStep(t1, s1, at, o);
      TagStep(t2, s2, at, o);
    }
  }

  lemma FieldTagsStep(t: Json, ks: set<string>, k: string, at: Where)
    requires t.Obj? && ks <= t.fields.Keys && k in t.fields && k !in ks
    ensures FieldTags(t, ks + {k}, at) == FieldTags(t, ks, at) + OneFieldTags(t, k, at)
    ensures FieldTags(t, ks, at) !! OneFieldTags(t, k, at)
  {
    forall j | j in ks ensures k != ID_KEY && j != ID_KEY ==> Tags(t.fields[j], at + [Key(j)]) !! Tags(t.fields[k], at + [Key(k)]) {
      TagsApart(t.fields[j], Key(j), t.fields[k], Key(k), at);
    }
    forall j | j in t.fields && j != ID_KEY ensures forall o | o in Tags(t.fields[j], at + [Key(j)]) :: o.1 != at {
      TagsApart(t.fields[j], Key(j), t.fields[j], Key(j + "x"), at);
    }
  }

  /** The tags that one field adds. */
  ghost function OneFieldTags(t: Json, k: string, at: Where): Tagged
    requires t.Obj? && k in t.fields
  {
    if k != ID_KEY then Tags(t.fields[k], at + [Key(k)])
    else if IsId(t.fields[k]) then {(IdText(t.fields[k]), at)}
    else {}
  }

  lemma ItemTagsStep(t: Json, n: nat, at: Where)
    requires t.Arr? && n < |t.items|
    ensures ItemTags(t, n + 1, at) == ItemTags(t, n, at) + Tags(t.items[n], at + [Index(n)])
    ensures ItemTags(t, n, at) !! Tags(t.items[n], at + [Index(n)])
  {
    forall i | 0 <= i < n ensures Tags(t.items[i], at + [Index(i)]) !! Tags(t.items[n], at + [Index(n)]) {
      TagsApart(t.items[i], Index(i), t.items[n], Index(n), at);
    }
  }

  /** Indexing `more` after `tags`: what is free next to the extended index is what makes
      the two together unique and free. */
  lemma NextTags(tags: Tagged, more: Tagged, index: map<string, Where>, index': map<string, Where>)
    requires tags !! more && Unique(tags) && Free(tags, index) && Pairs(index') == Pairs(index) + tags
    ensures Unique(more) && Free(more, index') <==> Unique(tags + more) && Free(tags + more, index)
  {
    forall id ensures id in index' <==> id in index || exists w :: (id, w) in tags {
      if id in index' { assert (id, index'[id]) in Pairs(index'); }
      if id in index { assert (id, index[id]) in Pairs(index'); }
      forall w | (id, w) in tags ensures id in index' { assert (id, w) in Pairs(index'); }
    }
    if Unique(tags + more) && Free(tags + more, index) {
      forall b | b in more ensures b.0 !in index' {
        forall a | a in tags ensures a.0 != b.0 { assert a in tags + more && b in tags + more; }
      }
    }
    if Unique(more) && Free(more, index') {
      forall a, b | a in tags && b in more ensures a.0 != b.0 {
        assert (a.0, a.1) in tags;
      }
    }
  }

  /** Walks the tree in any order of an object's fields. It succeeds exactly when every ID
      is a string or a number, none occurs twice and none is taken; the index then gains
      exactly the tagged objects. */
  method IndexObjects(t: Json, at: Where, index: map<string, Where>) returns (ok: bool, index': map<string, Where>)
    ensures ok <==> Indexable(t, at, index)
    ensures ok ==> Pairs(index') == Pairs(index) + Tags(t, at)
    decreases t, 1
  {
    if t.Obj? {
      ok, index' := IndexFields(t, at, index);
    } else if t.Arr? {
      ok, index' := IndexItems(t, at, index);
    } else {
      ok, index' := true, index;
    }
  }

  method IndexItems(t: Json, at: Where, index: map<string, Where>) returns (ok: bool, index': map<string, Where>)
    requires t.Arr?
    ensures ok <==> Indexable(t, at, index)
    ensures ok ==> Pairs(index') == Pairs(index) + Tags(t, at)
    decreases t, 0
  {
    index' := index;
    for i := 0 to |t.items|
      invariant forall j | 0 <= j < i :: IdsWellFormed(t.items[j])
      invariant Unique(ItemTags(t, i, at)) && Free(ItemTags(t, i, at), index)
      invariant Pairs(index') == Pairs(index) + ItemTags(t, i, at)
    {
      ItemTagsStep(t, i, at);
      NextTags(ItemTags(t, i, at), Tags(t.items[i], at + [Index(i)]), index, index');
      ok, index' := IndexObjects(t.items[i], at + [Index(i)], index');
      if !ok {
        assert ItemTags(t, i + 1, at) <= Tags(t, at);
        return;
      }
    }
    ok := true;
  }

  predicate FieldWellFormed(t: Json, k: string)
    requires t.Obj? && k in t.fields
  {
    if k == ID_KEY then IsId(t.fields[k]) else IdsWellFormed(t.fields[k])
  }

  lemma PairsAfterInsert(index: map<string, Where>, id: string, at: Where)
    requires id !in index
    ensures Pairs(index[id := at]) == Pairs(index) + {(id, at)}
  {
    var index' := index[id := at];
    assert id in index' && (id, index'[id]) in Pairs(index');
    forall k | k in index ensures (k, index[k]) in Pairs(index') {
      assert k in index' && index'[k] == index[k];
    }
  }

  method IndexField(t: Json, k: string, at: Where, index: map<string, Where>) returns (ok: bool, index': map<string, Where>)
    requires t.Obj? && k in t.fields
    ensures ok <==> FieldWellFormed(t, k) && Unique(OneFieldTags(t, k, at)) && Free(OneFieldTags(t, k, at), index)
    ensures ok ==> Pairs(index') == Pairs(index) + OneFieldTags(t, k, at)
    decreases t, 0, 0
  {
    if k == ID_KEY {
      if !IsId(t.fields[k]) { return false, index; }
      var id := IdText(t.fields[k]);
      assert (id, at) in OneFieldTags(t, k, at);
      if id in index { return false, index; }
      ok, index' := true, index[id := at];
      PairsAfterInsert(index, id, at);
    } else {
      ok, index' := IndexObjects(t.fields[k], at + [Key(k)], index);
    }
  }

  method IndexFields(t: Json, at: Where, index: map<string, Where>) returns (ok: bool, index': map<string, Where>)
    requires t.Obj?
    ensures ok <==> Indexable(t, at, index)
    ensures ok ==> Pairs(index') == Pairs(index) + Tags(t, at)
    decreases t, 0, 1
  {
    index' := index;
    var keys := t.fields.Keys;
    ghost var seen: set<string> := {};
    while keys != {}
      invariant keys !! seen && keys + seen == t.fields.Keys
      invariant forall k | k in seen :: FieldWellFormed(t, k)
      invariant Unique(FieldTags(t, seen, at)) && Free(FieldTags(t, seen, at), index)
      invariant Pairs(index') == Pairs(index) + FieldTags(t, seen, at)
      decreases keys
    {
      var k :| k in keys;
      FieldTagsStep(t, seen, k, at);
      NextTags(FieldTags(t, seen, at), OneFieldTags(t, k, at), index, index');
      ok, index' := IndexField(t, k, at, index');
      if !ok {
        NotIndexable(t, seen + {k}, k, at, index);
        return;
      }
      keys, seen := keys - {k}, seen + {k};
    }
    assert seen == t.fields.Keys;
    ok := true;
  }

  /** A field that is malformed, or a part of the tags that clashes, spoils the whole. */
  lemma NotIndexable(t: Json, ks: set<string>, k: string, at: Where, index: map<string, Where>)
    requires t.Obj? && ks <= t.fields.Keys && k in t.fields
    requires !FieldWellFormed(t, k) || !Unique(FieldTags(t, ks, at)) || !Free(FieldTags(t, ks, at), index)
    ensures !Indexable(t, at, index)
  {
    assert FieldTags(t, ks, at) <= Tags(t, at);
  }

  // ----- The change transaction -----

  /** The config that is run: the tree without its ID fields. */
  function Strip(t: Json): Json {
    match t
    case Obj(fields) => Obj(map k | k in fields && k != ID_KEY :: Strip(fields[k]))
    case Arr(items) => Arr(seq(|items|, i requires 0 <= i < |items| => Strip(items[i])))
    case _ => t
  }

  /** What stripping makes of a part: an object without its ID field, a list of the same length,
      the same value otherwise. */
  predicate Stripped(a: Json, b: Json) {
    match a
    case Obj(fields) => b.Obj? && b.fields.Keys == fields.Keys - {ID_KEY}
    case Arr(items) => b.Arr? && |b.items| == |items|
    case _ => b == a
  }

  /** Stripping takes away every ID field and nothing else. */
  lemma {:induction false} StripTakesIds(t: Json, steps: Where)
    ensures var a, b := At(t, steps), At(Strip(t), steps);
            (a.Some? <==> b.Some?) && (a.Some? ==> Stripped(a.value, b.value))
    decreases |steps|
  {
    if steps != [] {
      if t.Obj? && steps[0].Key? && steps[0].key in t.fields {
        StripTakesIds(t.fields[steps[0].key], steps[1..]);
      } else if t.Arr? && steps[0].Index? && steps[0].i < |t.items| {
        StripTakesIds(t.items[steps[0].i], steps[1..]);
      }
    }
  }

  const HERE: Where := [Key(CONFIG_KEY)]

  /** An If-Match header: absent, malformed or naming an unreadable path, or well formed
      with a hash that matches or not. */
  datatype IfMatch = Absent | Malformed | Matches(same: bool)

  datatype ChangeResult = Changed | Unchanged | Rejected

  /** Path operations on the root object keep it an object. */
  lemma RootStaysObject(m: Method, fields: map<string, Json>, path: seq<string>, body: Json, spread: bool)
    ensures Access(m, Obj(fields), path, body, spread).tree.Obj?
  {
  }

  /** The checks before anything is touched. */
  predicate Admissible(m: Method, path: seq<string>, spread: bool, ifMatch: IfMatch) {
    !m.Get? && (ifMatch.Absent? || ifMatch == Matches(true)) && (path != [] || spread)
  }

  class Config {
    /** The decoded configuration, under its key. */
    var rawCfg: map<string, Json>
    /** The encoded copy, as the value it encodes; None before the first load. */
    var rawJson: Option<Json>
    var index: map<string, Where>
    var running: Json

    function Tree(): Json
      reads this
    {
      Child(rawCfg, CONFIG_KEY)
    }

    /** Tree, encoded copy, index and running config describe the same configuration. */
    ghost predicate Consistent()
      reads this
    {
      && (if rawJson.None? then Tree().Null? else rawJson.value == Tree())
      && IdsWellFormed(Tree()) && Unique(Tags(Tree(), HERE))
      && Pairs(index) == Tags(Tree(), HERE)
      && running == Strip(Tree())
    }

    constructor ()
      ensures Consistent() && Tree() == Null
    {
      rawCfg := map[CONFIG_KEY := Null];
      rawJson := None;
      index := map[];
      running := Null;
    }

    /** The tree a change asks for. */
    ghost function Wanted(m: Method, path: seq<string>, body: Json, spread: bool): Json
      reads this
    {
      RootStaysObject(m, rawCfg, path, body, spread);
      Child(Access(m, Obj(rawCfg), path, body, spread).tree.fields, CONFIG_KEY)
    }

    /** `loads`: whether decoding and running the new config succeeds. */
    method Change(m: Method, path: seq<string>, body: Json, spread: bool, ifMatch: IfMatch, force: bool, loads: bool)
      returns (r: ChangeResult)
      requires Consistent()
      modifies this
      ensures Consistent()
      ensures r.Changed? ==> Tree() == old(Wanted(m, path, body, spread))
      ensures !r.Changed? ==>
                Tree() == old(Tree()) && rawJson == old(rawJson) && index == old(index) && running == old(running)
      ensures r.Changed? <==>
                && Admissible(m, path, spread, ifMatch)
                && Access(m, Obj(old(rawCfg)), path, body, spread).ok
                && (force || old(rawJson) != Some(old(Wanted(m, path, body, spread))))
                && Indexable(old(Wanted(m, path, body, spread)), HERE, map[])
                && loads
      ensures r.Unchanged? ==> old(Wanted(m, path, body, spread)) == old(Tree())
      ensures m.Get? || ifMatch.Malformed? || ifMatch == Matches(false) || (path == [] && !spread) ==> r.Rejected?
      ensures forall key | key != CONFIG_KEY && (path == [] || path[0] != key) ::
                (key in rawCfg <==> key in old(rawCfg)) && (key in rawCfg ==> rawCfg[key] == old(rawCfg)[key])
    {
      hide Access, Strip, Tags, IdsWellFormed;
      if !Admissible(m, path, spread, ifMatch) { return Rejected; }
      RootStaysObject(m, rawCfg, path, body, spread);
      forall key | path == [] || path[0] != key { KeyWritesNothingElse(m, rawCfg, path, key, body, spread); }
      ErrorKeepsTree(m, Obj(rawCfg), path, body, spread);
      var outcome := Traverse(m, Obj(rawCfg), path, body, spread);
      rawCfg := outcome.tree.fields;
      if !outcome.ok { return Rejected; }
      var newCfg := Child(rawCfg, CONFIG_KEY);
      if !force && rawJson == Some(newCfg) { return Unchanged; }
      var ok, idx := IndexObjects(newCfg, HERE, map[]);
      if !ok || !loads {
        rawCfg := rawCfg[CONFIG_KEY := if rawJson.Some? then rawJson.value else Null];
        return Rejected;
      }
      running := Strip(newCfg);
      rawJson, index := Some(newCfg), idx;
      r := Changed;
    }
  }
}
