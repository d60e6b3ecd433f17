/**
 * The JSON document behind `SimpleDB` (bot.js, lines 6-52): a tree of
 * JSON values addressed by dotted key paths.  `get` folds optional
 * property access over the path; `set` walks the path, replaces every
 * falsy intermediate by a fresh `{}` and overwrites the last key.  The
 * class body is strict-mode code, so writing a property of a primitive
 * value throws a TypeError and the document on disk stays as it was.
 */
module Document {
  import opened Wrappers
  import opened Text

  /** A JSON value.  Numbers are the integers the store holds. */
  datatype Node =
    | Obj(fields: map<string, Node>)
    | Arr(items: seq<Node>)
    | Str(s: string)
    | Num(n: int)
    | Bool(b: bool)
    | Null

  /** The document a fresh `tickets.json` holds: `{ tickets: {}, counter: 0 }`. */
  const InitialDocument: Node := Obj(map["tickets" := Obj(map[]), "counter" := Num(0)])

  /** JavaScript truthiness; `None` is `undefined`. */
  predicate Truthy(v: Option<Node>) {
    match v
    case None => false
    case Some(Obj(_)) => true
    case Some(Arr(_)) => true
    case Some(Str(s)) => s != ""
    case Some(Num(n)) => n != 0
    case Some(Bool(b)) => b
    case Some(Null) => false
  }

  /** `v?.[k]`: own properties of objects; anything else has none. */
  function Child(v: Option<Node>, k: string): Option<Node> {
    match v
    case Some(Obj(m)) => if k in m then Some(m[k]) else None
    case _ => None
  }

  /** `path.reduce((obj, k) => obj?.[k], v)`. */
  function Walk(v: Option<Node>, path: seq<string>): (r: Option<Node>)
    ensures v.None? ==> r.None?
    ensures path != [] && r.Some? ==> v.Some? && v.value.Obj?
    decreases |path|
  {
    if path == [] then v else Walk(Child(v, path[0]), path[1..])
  }

  /** Folding over a concatenated path folds over each part in turn. */
  lemma {:induction false} WalkAppend(v: Option<Node>, p: seq<string>, q: seq<string>)
    ensures Walk(v, p + q) == Walk(Walk(v, p), q)
    decreases |p|
  {
    if p == [] {
      assert p + q == q;
    } else {
      assert (p + q)[0] == p[0] && (p + q)[1..] == p[1..] + q;
      WalkAppend(Child(v, p[0]), p[1..], q);
    }
  }

  /** `get` yields `undefined` as soon as one segment of the path is missing. */
  lemma {:induction false} GetMissingSegment(doc: Node, path: seq<string>, k: nat)
    requires k <= |path| && Walk(Some(doc), path[..k]) == None
    ensures Walk(Some(doc), path) == None
  {
    assert path == path[..k] + path[k..];
    WalkAppend(Some(doc), path[..k], path[k..]);
    AbsentWalk(path[k..]);
  }

  /** Outcome of a write into the document: the new document or a thrown TypeError. */
  datatype WriteResult = Written(doc: Node) | TypeError

  /**
   * The effect of lines 36-41 of `set` on the object `node` for the key
   * path `path`: descend through truthy values, replace falsy ones by
   * `{}`, assign the last key.  Properties written on an array are not
   * array elements and JSON serialisation drops them, so a path through
   * an array leaves the array as it was; a property written on any
   * other primitive throws.
   */
  function Assign(node: Node, path: seq<string>, value: Node): (r: WriteResult)
    requires |path| >= 1
    ensures r.Written? ==> node.Obj? || node.Arr?
    ensures node.Arr? ==> r == Written(node)
    ensures node.Obj? && r.Written? ==> r.doc.Obj? && r.doc.fields.Keys == node.fields.Keys + {path[0]}
    decreases |path|
  {
    match node
    case Obj(m) =>
      if |path| == 1 then Written(Obj(m[path[0] := value]))
      else
        var child := if Truthy(Child(Some(node), path[0])) then m[path[0]] else Obj(map[]);
        Wrap(InObj(m, path[0]), Assign(child, path[1..], value))
    case Arr(_) => Written(node)
    case _ => TypeError
  }

  /** One object or array on the walked path, with the hole the walk went through. */
  datatype Frame = InObj(fields: map<string, Node>, key: string) | InArr(items: seq<Node>)

  /** Put a rewritten child back into its parent. */
  function Wrap(f: Frame, r: WriteResult): WriteResult {
    match r
    case TypeError => TypeError
    case Written(d) =>
      match f
      case InObj(m, k) => Written(Obj(m[k := d]))
      case InArr(items) => Written(Arr(items))
  }

  /** Put a rewritten subtree back into the whole spine of enclosing frames, innermost last. */
  function Plug(spine: seq<Frame>, r: WriteResult): WriteResult
    decreases |spine|
  {
    if spine == [] then r else Plug(spine[..|spine| - 1], Wrap(spine[|spine| - 1], r))
  }

  lemma PlugStep(spine: seq<Frame>, f: Frame, r: WriteResult)
    ensures Plug(spine + [f], r) == Plug(spine, Wrap(f, r))
  {
    assert (spine + [f])[..|spine|] == spine;
  }

  lemma {:induction false} PlugTypeError(spine: seq<Frame>)
    ensures Plug(spine, TypeError) == TypeError
    decreases |spine|
  {
    if spine != [] { PlugTypeError(spine[..|spine| - 1]); }
  }

  /** Paths below a freshly created `{}` never meet a primitive. */
  lemma {:induction false} FreshAssignWritten(path: seq<string>, value: Node)
    requires |path| >= 1
    ensures Assign(Obj(map[]), path, value).Written?
    decreases |path|
  {
    if |path| > 1 { FreshAssignWritten(path[1..], value); }
  }

  /**
   * The paths on which `set` succeeds as intended: every intermediate
   * value is an object or falsy (and so replaced by `{}`).
   */
  predicate Settable(node: Node, path: seq<string>)
    requires |path| >= 1
    decreases |path|
  {
    node.Obj? &&
    (|path| > 1 ==>
      var c := Child(Some(node), path[0]);
      !Truthy(c) || Settable(c.value, path[1..]))
  }

  lemma {:induction false} SettableWritten(node: Node, path: seq<string>, value: Node)
    requires |path| >= 1
    requires Settable(node, path)
    ensures Assign(node, path, value).Written? && Assign(node, path, value).doc.Obj?
    decreases |path|
  {
    if |path| > 1 {
      var c := Child(Some(node), path[0]);
      if Truthy(c) {
        SettableWritten(c.value, path[1..], value);
      } else {
        FreshAssignWritten(path[1..], value);
      }
    }
  }

  /** A fresh `{}` is always settable. */
  lemma FreshSettable(path: seq<string>)
    requires |path| >= 1
    ensures Settable(Obj(map[]), path)
  {
  }

  /** `set(path, v)` followed by `get(path)` yields `v` whenever the intermediates allow it. */
  lemma {:induction false} SetThenGet(node: Node, path: seq<string>, value: Node)
    requires |path| >= 1
    requires Settable(node, path)
    ensures Assign(node, path, value).Written?
    ensures Walk(Some(Assign(node, path, value).doc), path) == Some(value)
    decreases |path|
  {
    SettableWritten(node, path, value);
    var d := Assign(node, path, value).doc;
    if |path| > 1 {
      var c := Child(Some(node), path[0]);
      var child := if Truthy(c) then c.value else Obj(map[]);
      if !Truthy(c) { FreshSettable(path[1..]); }
      SetThenGet(child, path[1..], value);
      assert Child(Some(d), path[0]) == Some(Assign(child, path[1..], value).doc);
    }
  }

  /** A path that branches off the written path reads as before the write. */
  lemma {:induction false} SetKeepsOthers(node: Node, path: seq<string>, value: Node, q: seq<string>, k: nat)
    requires |path| >= 1
    requires Settable(node, path)
    requires k < |path| && k < |q| && q[..k] == path[..k] && q[k] != path[k]
    ensures Assign(node, path, value).Written?
    ensures Walk(Some(Assign(node, path, value).doc), q) == Walk(Some(node), q)
    decreases |path|
  {
    SettableWritten(node, path, value);
    var d := Assign(node, path, value).doc;
    if k == 0 {
      assert Child(Some(d), q[0]) == Child(Some(node), q[0]);
    } else {
      var c := Child(Some(node), path[0]);
      var child := if Truthy(c) then c.value else Obj(map[]);
      if !Truthy(c) { FreshSettable(path[1..]); }
      assert q[0] == path[0] by { assert q[..k][0] == path[..k][0]; }
      assert q[1..][..k - 1] == q[..k][1..] && path[1..][..k - 1] == path[..k][1..];
      SetKeepsOthers(child, path[1..], value, q[1..], k - 1);
      assert Child(Some(d), q[0]) == Some(Assign(child, path[1..], value).doc);
      if !Truthy(c) {
        // The new `{}` and the old falsy value both read as absent below.
        EmptyWalk(q[1..][k - 1..]);
        FreshWalk(path[1..], value, q[1..], k - 1);
        NonObjectWalk(c, q[1..]);
      }
    }
  }

  lemma WalkTwo(v: Option<Node>, a: string, b: string)
    ensures Walk(v, [a]) == Child(v, a)
    ensures Walk(v, [a, b]) == Child(Child(v, a), b)
  {
    assert [a, b][1..] == [b];
    assert [b][1..] == [];
    assert Walk(v, [a, b]) == Walk(Child(v, a), [b]);
  }

  /** Nothing is reachable below an absent or non-object value. */
  lemma {:induction false} NonObjectWalk(v: Option<Node>, q: seq<string>)
    requires !(v.Some? && v.value.Obj?)
    requires q != []
    ensures Walk(v, q) == None
  {
    AbsentWalk(q[1..]);
  }

  lemma {:induction false} AbsentWalk(q: seq<string>)
    ensures Walk(None, q) == None
    decreases |q|
  {
    if q != [] { AbsentWalk(q[1..]); }
  }

  lemma EmptyWalk(q: seq<string>)
    requires q != []
    ensures Walk(Some(Obj(map[])), q) == None
  {
    AbsentWalk(q[1..]);
  }

  /** Below a freshly created chain of objects only the written path exists. */
  lemma {:induction false} FreshWalk(path: seq<string>, value: Node, q: seq<string>, k: nat)
    requires |path| >= 1
    requires k < |path| && k < |q| && q[..k] == path[..k] && q[k] != path[k]
    ensures Assign(Obj(map[]), path, value).Written?
    ensures Walk(Some(Assign(Obj(map[]), path, value).doc), q) == None
    decreases |path|
  {
    FreshAssignWritten(path, value);
    var d := Assign(Obj(map[]), path, value).doc;
    if k == 0 {
      assert Child(Some(d), q[0]) == None;
      AbsentWalk(q[1..]);
    } else {
      assert q[0] == path[0] by { assert q[..k][0] == path[..k][0]; }
      assert q[1..][..k - 1] == q[..k][1..] && path[1..][..k - 1] == path[..k][1..];
      FreshWalk(path[1..], value, q[1..], k - 1);
      assert Child(Some(d), q[0]) == Some(Assign(Obj(map[]), path[1..], value).doc);
    }
  }

  /**
   * Every intermediate of the written path is an object afterwards, and
   * one that was missing or falsy before is a new object holding only
   * the next key of the path.
   */
  lemma {:induction false} SetCreatesIntermediates(node: Node, path: seq<string>, value: Node, j: nat)
    requires |path| >= 1
    requires Settable(node, path)
    requires 0 < j < |path|
    ensures Assign(node, path, value).Written?
    ensures var w := Walk(Some(Assign(node, path, value).doc), path[..j]);
            w.Some? && w.value.Obj? && path[j] in w.value.fields &&
            (!Truthy(Walk(Some(node), path[..j])) ==> w.value.fields.Keys == {path[j]})
    decreases |path|
  {
    SettableWritten(node, path, value);
    var d := Assign(node, path, value).doc;
    var c := Child(Some(node), path[0]);
    var child := if Truthy(c) then c.value else Obj(map[]);
    if !Truthy(c) { FreshSettable(path[1..]); }
    SettableWritten(child, path[1..], value);
    var cd := Assign(child, path[1..], value).doc;
    assert Child(Some(d), path[0]) == Some(cd);
    assert path[..j][1..] == path[1..][..j - 1];
    if j == 1 {
      assert Walk(Some(d), path[..j]) == Walk(Some(cd), []);
      assert Walk(Some(node), path[..j]) == Walk(c, []);
      if |path| == 2 {
      } else {
        SetCreatesIntermediates(child, path[1..], value, 1);
        assert path[1..][..1] == [path[1]];
      }
    } else {
      SetCreatesIntermediates(child, path[1..], value, j - 1);
      if !Truthy(c) {
        NonObjectWalk(c, path[1..][..j - 1]);
        FreshIntermediate(path[1..], value, j - 1);
      }
    }
  }

  lemma {:induction false} FreshIntermediate(path: seq<string>, value: Node, j: nat)
    requires |path| >= 1 && 0 < j < |path|
    ensures Assign(Obj(map[]), path, value).Written?
    ensures var w := Walk(Some(Assign(Obj(map[]), path, value).doc), path[..j]);
            w.Some? && w.value.Obj? && w.value.fields.Keys == {path[j]}
    decreases |path|
  {
    FreshAssignWritten(path, value);
    FreshAssignWritten(path[1..], value);
    var d := Assign(Obj(map[]), path, value).doc;
    var cd := Assign(Obj(map[]), path[1..], value).doc;
    assert Child(Some(d), path[0]) == Some(cd);
    assert path[..j][1..] == path[1..][..j - 1];
    if j == 1 {
      assert Walk(Some(d), path[..j]) == Walk(Some(cd), []);
      if |path| > 2 {
        FreshAssignWritten(path[2..], value);
      }
    } else {
      FreshIntermediate(path[1..], value, j - 1);
    }
  }

  /**
   * `resetUserTickets(userId)` (lines 45-51): the user's entry goes only
   * when both `data.tickets` and `data.tickets[userId]` are truthy;
   * reading a property of a `null` document throws.
   */
  function ResetUser(doc: Node, userId: string): (r: WriteResult)
    ensures r.TypeError? <==> doc.Null?
    ensures r.Written? && !doc.Obj? ==> r.doc == doc
    ensures doc.Obj? ==> r.doc.Obj? && r.doc.fields.Keys == doc.fields.Keys
  {
    match doc
    case Null => TypeError
    case Obj(m) =>
      var t := Child(Some(doc), "tickets");
      if Truthy(t) && Truthy(Child(t, userId))
      then Written(Obj(m["tickets" := Obj(t.value.fields - {userId})]))
      else Written(doc)
    case _ => Written(doc)
  }

  /** After the reset nothing is stored for the user, and every path off `tickets.<userId>` reads as before. */
  lemma ResetUserEffect(doc: Node, userId: string, q: seq<string>)
    requires doc.Obj?
    requires q == [] || q[0] != "tickets" || (|q| >= 2 && q[1] != userId)
    ensures ResetUser(doc, userId).Written?
    ensures var d := ResetUser(doc, userId).doc;
            !Truthy(Walk(Some(d), ["tickets", userId])) &&
            (q != [] ==> Walk(Some(d), q) == Walk(Some(doc), q))
  {
    var d := ResetUser(doc, userId).doc;
    var t := Child(Some(doc), "tickets");
    if Truthy(t) && Truthy(Child(t, userId)) {
      WalkTwo(Some(d), "tickets", userId);
      if q != [] {
        if q[0] != "tickets" {
          assert Child(Some(d), q[0]) == Child(Some(doc), q[0]);
        } else {
          assert Child(Child(Some(d), q[0]), q[1]) == Child(Child(Some(doc), q[0]), q[1]);
          assert Walk(Some(d), q) == Walk(Child(Child(Some(d), q[0]), q[1]), q[2..]);
          assert Walk(Some(doc), q) == Walk(Child(Child(Some(doc), q[0]), q[1]), q[2..]);
        }
      }
    } else {
      WalkTwo(Some(d), "tickets", userId);
    }
  }

  /** Resetting the same user twice leaves the document as one reset does. */
  lemma ResetUserIdempotent(doc: Node, userId: string)
    requires ResetUser(doc, userId).Written?
    ensures ResetUser(ResetUser(doc, userId).doc, userId) == ResetUser(doc, userId)
  {
  }

  /**
   * The `!reset-tickets` command (lines 592-594): `data.tickets = {}` on
   * the whole document.  This code is outside the class and so not in
   * strict mode: a property written on a string, number or boolean is
   * silently lost, one written on an array is dropped by JSON
   * serialisation, and only a `null` document throws.
   */
  function ClearTickets(doc: Node): (r: WriteResult)
    ensures r.TypeError? <==> doc.Null?
    ensures r.Written? && !doc.Obj? ==> r.doc == doc
    ensures doc.Obj? ==> r.doc.Obj? && r.doc.fields.Keys == doc.fields.Keys + {"tickets"}
  {
    match doc
    case Obj(m) => Written(Obj(m["tickets" := Obj(map[])]))
    case Null => TypeError
    case _ => Written(doc)
  }

  /** After the admin reset no user has an entry and `counter` is untouched. */
  lemma ClearTicketsEffect(doc: Node, userId: string)
    requires doc.Obj?
    ensures ClearTickets(doc).Written?
    ensures Walk(Some(ClearTickets(doc).doc), ["tickets", userId]) == None
    ensures Walk(Some(ClearTickets(doc).doc), ["tickets"]) == Some(Obj(map[]))
    ensures Walk(Some(ClearTickets(doc).doc), ["counter"]) == Walk(Some(doc), ["counter"])
  {
    var d := ClearTickets(doc).doc;
    WalkTwo(Some(d), "tickets", userId);
    WalkTwo(Some(d), "counter", userId);
    WalkTwo(Some(doc), "counter", userId);
  }

  /**
   * The walk of `set` (lines 36-41) over the key path `keys`.  Values are
   * immutable here, so the objects the source mutates in place along the
   * path are kept on a spine of frames while walking down and put back
   * together afterwards.
   */
  method WritePath(root: Node, keys: seq<string>, value: Node) returns (r: WriteResult)
    requires |keys| >= 1
    ensures r == Assign(root, keys, value)
  {
    var obj := root;
    var spine: seq<Frame> := [];
    var i := 0;
    while i < |keys| - 1
      invariant 0 <= i <= |keys| - 1
      invariant Plug(spine, Assign(obj, keys[i..], value)) == Assign(root, keys, value)
    {
      var k := keys[i];
      assert keys[i..][0] == k && keys[i..][1..] == keys[i + 1..];
      match obj {
        case Obj(m) =>
          var child := if Truthy(Child(Some(obj), k)) then m[k] else Obj(map[]);
          PlugStep(spine, InObj(m, k), Assign(child, keys[i + 1..], value));
          spine := spine + [InObj(m, k)];
          obj := child;
        case Arr(items) =>
          // `arr[k] = {}` adds a property that serialisation drops.
          FreshAssignWritten(keys[i + 1..], value);
          PlugStep(spine, InArr(items), Assign(Obj(map[]), keys[i + 1..], value));
          spine := spine + [InArr(items)];
          obj := Obj(map[]);
        case _ =>
          assert Assign(obj, keys[i..], value) == TypeError;
          PlugTypeError(spine);
          return TypeError;
      }
      i := i + 1;
    }
    assert keys[i..] == [keys[i]];
    match obj {
      case Obj(m) =>
        r := Written(Obj(m[keys[i] := value]));
      case Arr(_) =>
        r := Written(obj);
      case _ =>
        assert Assign(obj, keys[i..], value) == TypeError;
        PlugTypeError(spine);
        return TypeError;
    }
    assert r == Assign(obj, keys[i..], value);
    var j := |spine|;
    assert spine[..j] == spine;
    while j > 0
      invariant 0 <= j <= |spine|
      invariant r.Written?
      invariant Plug(spine[..j], r) == Assign(root, keys, value)
    {
      assert spine[..j] == spine[..j - 1] + [spine[j - 1]];
      PlugStep(spine[..j - 1], spine[j - 1], r);
      r := Wrap(spine[j - 1], r);
      j := j - 1;
    }
    assert spine[..j] == [];
  }

  /**
   * `SimpleDB`: `data` is the content of `tickets.json`.  Each call reads
   * the file and writes it back whole, so the field is the only state.
   */
  class SimpleDB {
    var data: Node

    /** `ensureFileExists` (lines 12-16): keep an existing file, else write the initial document. */
    constructor (existing: Option<Node>)
      ensures data == existing.GetOr(InitialDocument)
    {
      data := existing.GetOr(InitialDocument);
    }

    /** `get(key)` (lines 26-29). */
    function Get(key: string): (r: Option<Node>)
      reads this
      ensures '.' !in key ==> r == Child(Some(data), key)
    {
      if '.' !in key then
        SplitPiece(key, '.');
        assert Walk(Some(data), [key]) == Walk(Child(Some(data), key), []);
        Walk(Some(data), Split(key, '.'))
      else Walk(Some(data), Split(key, '.'))
    }

    /** `set(key, value)` (lines 31-43); `ok` is false when the source throws a TypeError. */
    method Set(key: string, value: Node) returns (ok: bool)
      modifies this
      ensures var r := Assign(old(data), Split(key, '.'), value);
              ok == r.Written? && data == (if ok then r.doc else old(data))
    {
      var r := WritePath(data, Split(key, '.'), value);
      ok := r.Written?;
      if ok { data := r.doc; }
    }

    /** `resetUserTickets(userId)` (lines 45-51); `ok` is false when the source throws. */
    method ResetUserTickets(userId: string) returns (ok: bool)
      modifies this
      ensures var r := ResetUser(old(data), userId);
              ok == r.Written? && data == (if ok then r.doc else old(data))
    {
      var r := ResetUser(data, userId);
      ok := r.Written?;
      if ok { data := r.doc; }
    }

    /** `data.tickets = {}; db.write(data)` (lines 592-594); `ok` is false when the source throws. */
    method ResetAllTickets() returns (ok: bool)
      modifies this
      ensures var r := ClearTickets(old(data));
              ok == r.Written? && data == (if ok then r.doc else old(data))
    {
      var r := ClearTickets(data);
      ok := r.Written?;
      if ok { data := r.doc; }
    }
  }
}
