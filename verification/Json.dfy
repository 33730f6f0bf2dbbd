/** JSON values and the dotted paths the flow context is read and written by. */
module Json {
  import opened Wrappers

  /** A number is an abstract ordered quantity; objects are unordered. */
  datatype Json =
    | Null
    | Bool(b: bool)
    | Number(n: real)
    | Str(s: string)
    | Arr(items: seq<Json>)
    | Obj(fields: map<string, Json>)

  const EMPTY: Json := Obj(map[])

  /** No number anywhere inside. */
  predicate NumberFree(v: Json) {
    match v
    case Number(_) => false
    case Arr(items) => forall i | 0 <= i < |items| :: NumberFree(items[i])
    case Obj(fields) => forall k | k in fields :: NumberFree(fields[k])
    case _ => true
  }

  // ---------------------------------------------------------------- paths

  function SplitDots(s: string): (parts: seq<string>)
    ensures parts != []
  {
    if s == "" then [""]
    else
      var rest := SplitDots(s[1..]);
      if s[0] == '.' then [""] + rest else [[s[0]] + rest[0]] + rest[1..]
  }

  ghost function JoinDots(parts: seq<string>): string
    requires parts != []
  {
    if |parts| == 1 then parts[0] else parts[0] + "." + JoinDots(parts[1..])
  }

  /** The parts of a dotted path are those without a dot that, joined by dots, make it up. */
  lemma {:induction false} SplitIff(s: string, parts: seq<string>)
    ensures SplitDots(s) == parts
       <==> parts != [] && (forall i | 0 <= i < |parts| :: '.' !in parts[i]) && JoinDots(parts) == s
  {
    SplitJoins(s);
    if parts != [] && forall i | 0 <= i < |parts| :: '.' !in parts[i] {
      JoinSplits(parts);
    }
  }

  lemma {:induction false} SplitJoins(s: string)
    ensures var parts := SplitDots(s); JoinDots(parts) == s && forall i | 0 <= i < |parts| :: '.' !in parts[i]
  {
    if s != "" {
      SplitJoins(s[1..]);
      var parts, rest := SplitDots(s), SplitDots(s[1..]);
      if s[0] == '.' {
        assert parts[1..] == rest;
        assert "" + "." + s[1..] == s;
      } else {
        assert parts[1..] == rest[1..];
        assert [s[0]] + s[1..] == s;
        if |rest| > 1 {
          assert [s[0]] + (rest[0] + "." + JoinDots(rest[1..])) == ([s[0]] + rest[0]) + "." + JoinDots(rest[1..]);
        }
      }
    }
  }

  lemma {:induction false} JoinSplits(parts: seq<string>)
    requires parts != [] && forall i | 0 <= i < |parts| :: '.' !in parts[i]
    ensures SplitDots(JoinDots(parts)) == parts
  {
    if |parts| == 1 {
      SplitPlain(parts[0]);
    } else {
      JoinSplits(parts[1..]);
      SplitWord(parts[0], JoinDots(parts[1..]));
    }
  }

  lemma {:induction false} SplitPlain(w: string)
    requires '.' !in w
    ensures SplitDots(w) == [w]
  {
    if w != "" {
      SplitPlain(w[1..]);
      assert w[0] in w && [w[0]] + w[1..] == w;
    }
  }

  lemma {:induction false} SplitWord(w: string, s: string)
    requires '.' !in w
    ensures SplitDots(w + "." + s) == [w] + SplitDots(s)
  {
    var t := w + "." + s;
    if w == "" {
      assert t == "." + s && t[1..] == s;
    } else {
      SplitWord(w[1..], s);
      assert t[0] == w[0] && w[0] in w;
      assert [w[0]] + w[1..] == w;
      assert t[1..] == w[1..] + "." + s;
    }
  }

  /** The node at the end of `path`, if every part of it is there. */
  function Lookup(v: Json, path: seq<string>): Option<Json> {
    if path == [] then Some(v)
    else if v.Obj? && path[0] in v.fields then Lookup(v.fields[path[0]], path[1..])
    else None
  }

  /** Reading: a path that leads nowhere reads `Null`. */
  function GetPath(v: Json, path: seq<string>): Json {
    match Lookup(v, path)
    case Some(x) => x
    case None => Null
  }

  /** The field `key`, or `Null`. */
  function Child(v: Json, key: string): Json {
    if v.Obj? && key in v.fields then v.fields[key] else Null
  }

  lemma ReadStep(v: Json, path: seq<string>)
    requires path != []
    ensures GetPath(v, path) == GetPath(Child(v, path[0]), path[1..])
  {
  }

  lemma ReadOne(v: Json, a: string)
    ensures GetPath(v, [a]) == Child(v, a)
  {
    ReadStep(v, [a]);
  }

  lemma ReadTwo(v: Json, a: string, b: string)
    ensures GetPath(v, [a, b]) == Child(Child(v, a), b)
  {
    ReadStep(v, [a, b]);
    ReadOne(Child(v, a), b);
  }

  lemma ReadThree(v: Json, a: string, b: string, c: string)
    ensures GetPath(v, [a, b, c]) == Child(Child(Child(v, a), b), c)
  {
    ReadStep(v, [a, b, c]);
    assert [a, b, c][1..] == [b, c];
    ReadTwo(Child(v, a), b, c);
  }

  function FieldsOf(v: Json): map<string, Json> {
    if v.Obj? then v.fields else map[]
  }

  function ChildOrEmpty(fields: map<string, Json>, key: string): Json {
    if key in fields then fields[key] else EMPTY
  }

  /** Writing: objects are made on the way, and a scalar in the way is replaced. */
  function SetPath(v: Json, path: seq<string>, x: Json): Json
    requires path != []
    decreases |path|, 0
  {
    Obj(FieldsOf(v)[path[0] := WrittenChild(ChildOrEmpty(FieldsOf(v), path[0]), path[1..], x)])
  }

  /** What a write leaves one key down: the value itself at the end of the path. */
  function WrittenChild(child: Json, rest: seq<string>, x: Json): Json
    decreases |rest|, 1
  {
    if rest == [] then x else SetPath(child, rest, x)
  }

  // ---------------------------------------------- the moving-cursor writer

  /** An object the cursor went through, and the key it left it by. */
  datatype Frame = Frame(fields: map<string, Json>, key: string)

  function Plug(trail: seq<Frame>, v: Json): Json {
    if trail == [] then v
    else
      var last := trail[|trail| - 1];
      Plug(trail[..|trail| - 1], Obj(last.fields[last.key := v]))
  }

  /** The loop of `set_path`: the cursor walks down, the trail remembers what it is inside of. */
  method WritePath(value: Json, path: seq<string>, x: Json) returns (written: Json)
    requires path != []
    ensures written == SetPath(value, path, x)
  {
    var cursor := value;
    var trail: seq<Frame> := [];
    var i := 0;
    while i < |path| - 1
      invariant 0 <= i <= |path| - 1
      invariant Plug(trail, SetPath(cursor, path[i..], x)) == SetPath(value, path, x)
    {
      var fields := FieldsOf(cursor);
      var frame := Frame(fields, path[i]);
      ghost var inner := SetPath(ChildOrEmpty(fields, path[i]), path[i + 1..], x);
      assert path[i..][1..] == path[i + 1..];
      assert (trail + [frame])[..|trail|] == trail;
      assert Plug(trail + [frame], inner) == Plug(trail, SetPath(cursor, path[i..], x));
      cursor := ChildOrEmpty(fields, path[i]);
      trail := trail + [frame];
      i := i + 1;
    }
    assert path[i..] == [path[i]];
    written := Obj(FieldsOf(cursor)[path[i] := x]);
    while trail != []
      invariant Plug(trail, written) == SetPath(value, path, x)
      decreases |trail|
    {
      var last := trail[|trail| - 1];
      written := Obj(last.fields[last.key := written]);
      trail := trail[..|trail| - 1];
    }
  }

  // ------------------------------------------------------------- lens laws

  /** Two paths that part ways at some key. */
  ghost predicate Diverge(p: seq<string>, q: seq<string>) {
    !(p <= q) && !(q <= p)
  }

  lemma DivergeTail(p: seq<string>, q: seq<string>)
    requires Diverge(p, q)
    ensures p != [] && q != []
    ensures p[0] == q[0] ==> Diverge(p[1..], q[1..])
  {
    assert [] <= q && [] <= p;
    if p[0] == q[0] {
      assert p[1..] <= q[1..] ==> p <= q;
      assert q[1..] <= p[1..] ==> q <= p;
    }
  }

  /** Reading at or below the path just written reads the value written. */
  lemma {:induction false} ReadBelowWritten(v: Json, p: seq<string>, r: seq<string>, x: Json)
    requires p != []
    ensures Lookup(SetPath(v, p, x), p + r) == Lookup(x, r)
    decreases |p|
  {
    assert (p + r)[1..] == p[1..] + r;
    if |p| == 1 {
      assert p[1..] + r == r;
    } else {
      ReadBelowWritten(ChildOrEmpty(FieldsOf(v), p[0]), p[1..], r, x);
    }
  }

  /** Writing one path leaves every diverging path as it was, present or missing. */
  lemma {:induction false} WriteKeepsDiverging(v: Json, p: seq<string>, q: seq<string>, x: Json)
    requires Diverge(p, q)
    ensures p != []
    ensures Lookup(SetPath(v, p, x), q) == Lookup(v, q)
    decreases |p|
  {
    DivergeTail(p, q);
    if p[0] == q[0] {
      DivergeTail(p[1..], q[1..]);
      WriteKeepsDiverging(ChildOrEmpty(FieldsOf(v), p[0]), p[1..], q[1..], x);
    }
  }

  /** Reading above the path written sees the same write, made there. */
  lemma {:induction false} ReadAboveWritten(v: Json, q: seq<string>, r: seq<string>, x: Json)
    requires r != []
    ensures Lookup(SetPath(v, q + r, x), q) == Some(SetPath(GetPath(v, q), r, x))
    decreases |q|
  {
    if q == [] {
      assert q + r == r;
    } else {
      assert (q + r)[1..] == q[1..] + r;
      ReadAboveWritten(ChildOrEmpty(FieldsOf(v), q[0]), q[1..], r, x);
      WriteNullOrEmpty(r, x);
      if !(v.Obj? && q[0] in v.fields) && |q| > 1 {
        assert Lookup(EMPTY, q[1..]).None?;
      }
    }
  }

  lemma WriteNullOrEmpty(p: seq<string>, x: Json)
    requires p != []
    ensures SetPath(Null, p, x) == SetPath(EMPTY, p, x)
  {
  }

  /** The last of two writes to one path wins. */
  lemma {:induction false} WriteTwice(v: Json, p: seq<string>, x: Json, y: Json)
    requires p != []
    ensures SetPath(SetPath(v, p, x), p, y) == SetPath(v, p, y)
    decreases |p|
  {
    var fields := FieldsOf(v);
    if |p| == 1 {
      assert fields[p[0] := x][p[0] := y] == fields[p[0] := y];
    } else {
      var child := ChildOrEmpty(fields, p[0]);
      WriteTwice(child, p[1..], x, y);
      var inner := SetPath(child, p[1..], x);
      assert ChildOrEmpty(fields[p[0] := inner], p[0]) == inner;
      assert fields[p[0] := inner][p[0] := SetPath(inner, p[1..], y)] == fields[p[0] := SetPath(child, p[1..], y)];
    }
  }

  /** Writing back what was read changes nothing exactly when the path was there. */
  lemma {:induction false} WriteBackIffPresent(v: Json, p: seq<string>)
    requires p != []
    ensures SetPath(v, p, GetPath(v, p)) == v <==> Lookup(v, p).Some?
    decreases |p|
  {
    ReadBelowWritten(v, p, [], GetPath(v, p));
    assert p + [] == p;
    if Lookup(v, p).Some? {
      if |p| > 1 {
        WriteBackIffPresent(v.fields[p[0]], p[1..]);
      }
      assert v.fields[p[0] := v.fields[p[0]]] == v.fields;
    }
  }

  /** Writes to diverging paths can be made in either order. */
  lemma {:induction false} WritesCommute(v: Json, p: seq<string>, x: Json, q: seq<string>, y: Json)
    requires Diverge(p, q)
    ensures p != [] && q != []
    ensures SetPath(SetPath(v, p, x), q, y) == SetPath(SetPath(v, q, y), p, x)
    decreases |p|
  {
    DivergeTail(p, q);
    var child := ChildOrEmpty(FieldsOf(v), p[0]);
    if p[0] == q[0] {
      DivergeTail(p[1..], q[1..]);
      WritesCommute(child, p[1..], x, q[1..], y);
      SameHeadCommute(v, p, x, q, y, child);
    } else {
      OtherHeadCommute(v, p, x, q, y);
    }
  }

  lemma SameHeadCommute(v: Json, p: seq<string>, x: Json, q: seq<string>, y: Json, child: Json)
    requires |p| > 1 && |q| > 1 && p[0] == q[0] && child == ChildOrEmpty(FieldsOf(v), p[0])
    requires SetPath(SetPath(child, p[1..], x), q[1..], y) == SetPath(SetPath(child, q[1..], y), p[1..], x)
    ensures SetPath(SetPath(v, p, x), q, y) == SetPath(SetPath(v, q, y), p, x)
  {
    WriteOver(FieldsOf(v), p[0], SetPath(child, p[1..], x), q, y);
    WriteOver(FieldsOf(v), q[0], SetPath(child, q[1..], y), p, x);
  }

  lemma OtherHeadCommute(v: Json, p: seq<string>, x: Json, q: seq<string>, y: Json)
    requires p != [] && q != [] && p[0] != q[0]
    ensures SetPath(SetPath(v, p, x), q, y) == SetPath(SetPath(v, q, y), p, x)
  {
    var fields := FieldsOf(v);
    var a := WrittenChild(ChildOrEmpty(fields, p[0]), p[1..], x);
    var b := WrittenChild(ChildOrEmpty(fields, q[0]), q[1..], y);
    WriteBeside(fields, p[0], a, q, y);
    WriteBeside(fields, q[0], b, p, x);
    assert fields[p[0] := a][q[0] := b] == fields[q[0] := b][p[0] := a];
  }

  lemma WriteBeside(fields: map<string, Json>, key: string, a: Json, q: seq<string>, y: Json)
    requires q != [] && q[0] != key
    ensures SetPath(Obj(fields[key := a]), q, y)
         == Obj(fields[key := a][q[0] := WrittenChild(ChildOrEmpty(fields, q[0]), q[1..], y)])
  {
  }

  lemma WriteOver(fields: map<string, Json>, key: string, a: Json, q: seq<string>, y: Json)
    requires q != [] && q[0] == key
    ensures SetPath(Obj(fields[key := a]), q, y) == Obj(fields[key := WrittenChild(a, q[1..], y)])
  {
    var w := WrittenChild(a, q[1..], y);
    assert fields[key := a][key := w] == fields[key := w];
  }

  // ----------------------------------------------------------- the form

  /** Inputs of a submit that are not form fields. */
  predicate IgnoredInput(key: string) {
    key in ["origin", "transactionId", "response", "failure", "failureReason", "failureMessage",
            "token", "exchangeCode", "exchangeError", "idpInitiated"]
  }

  function StripForm(key: string): string {
    if "form." <= key then key[5..] else key
  }

  /** Where a submitted field lands. */
  function FormPath(key: string): (path: seq<string>)
    ensures path != []
  {
    SplitDots("form." + StripForm(key))
  }

  /** Every field lands under `form`, with or without the prefix. */
  lemma FormPathShape(key: string)
    ensures FormPath("form." + key) == ["form"] + SplitDots(key)
    ensures (forall rest: string :: key != "form." + rest) ==> FormPath(key) == ["form"] + SplitDots(key)
    ensures FormPath(key)[0] == "form"
  {
    FormSplits(key);
    FormSplits("form." + key);
    assert ("form." + key)[5..] == key;
    if "form." <= key {
      assert key == "form." + key[5..];
    }
  }

  lemma FormSplits(key: string)
    ensures FormPath(key) == ["form"] + SplitDots(StripForm(key))
  {
    SplitWord("form", StripForm(key));
    assert "form" + "." + StripForm(key) == "form." + StripForm(key);
  }

  /** A plain field and its prefixed name land in the same place, one below `form`. */
  lemma PlainFieldLands(key: string)
    requires '.' !in key
    ensures FormPath(key) == ["form", key] && FormPath("form." + key) == ["form", key]
  {
    SplitPlain(key);
    FormPathShape(key);
    forall rest: string ensures key != "form." + rest {
      assert ("form." + rest)[4] == '.';
    }
  }

  datatype Field = Field(key: string, value: Json)

  function MergeFields(ctx: Json, fields: seq<Field>): Json {
    if fields == [] then ctx
    else
      var before := MergeFields(ctx, fields[..|fields| - 1]);
      var f := fields[|fields| - 1];
      if IgnoredInput(f.key) then before else SetPath(before, FormPath(f.key), f.value)
  }

  /** `order` lists every field of `fields` once. */
  ghost predicate Lists(order: seq<Field>, fields: map<string, Json>) {
    && (forall i | 0 <= i < |order| :: order[i].key in fields && fields[order[i].key] == order[i].value)
    && (forall i, j | 0 <= i < j < |order| :: order[i].key != order[j].key)
    && (forall k | k in fields :: Field(k, fields[k]) in order)
  }

  /** Merging a submit, in whatever order the object hands out its fields. */
  method MergeForm(ctx: Json, input: Json) returns (merged: Json, ghost order: seq<Field>)
    ensures !input.Obj? ==> merged == ctx && order == []
    ensures input.Obj? ==> Lists(order, input.fields)
    ensures merged == MergeFields(ctx, order)
    ensures forall q | q != [] && q[0] != "form" :: Lookup(merged, q) == Lookup(ctx, q)
    ensures ctx.Obj? ==> merged.Obj?
  {
    merged := ctx;
    order := [];
    if input.Obj? {
      var todo := input.fields.Keys;
      while todo != {}
        invariant todo <= input.fields.Keys
        invariant forall i | 0 <= i < |order| ::
                    order[i].key in input.fields.Keys - todo && input.fields[order[i].key] == order[i].value
        invariant forall i, j | 0 <= i < j < |order| :: order[i].key != order[j].key
        invariant forall k | k in input.fields.Keys - todo :: Field(k, input.fields[k]) in order
        invariant merged == MergeFields(ctx, order)
        decreases todo
      {
        var key :| key in todo;
        ghost var before := order;
        order := order + [Field(key, input.fields[key])];
        assert order[..|before|] == before;
        assert order[|before|] == Field(key, input.fields[key]);
        if !IgnoredInput(key) {
          merged := WritePath(merged, FormPath(key), input.fields[key]);
        }
        todo := todo - {key};
      }
    }
    forall q | q != [] && q[0] != "form" ensures Lookup(merged, q) == Lookup(ctx, q) {
      MergeKeepsOutsideForm(ctx, order, q);
    }
    MergeKeepsObject(ctx, order);
  }

  lemma MergeKeepsObject(ctx: Json, order: seq<Field>)
    ensures ctx.Obj? ==> MergeFields(ctx, order).Obj?
  {
  }

  /** What a submit of one field does: what the widget sends about a round trip stays out, anything else lands. */
  lemma OneField(ctx: Json, key: string, value: Json)
    ensures MergeFields(ctx, [Field(key, value)])
            == if key in {"origin", "transactionId", "response", "failure", "failureReason", "failureMessage", "token",
                          "exchangeCode", "exchangeError", "idpInitiated"}
               then ctx else SetPath(ctx, FormPath(key), value)
  {
    var fields := [Field(key, value)];
    assert fields[..0] == [];
    assert MergeFields(ctx, fields[..0]) == ctx;
  }

  /** A submit never reaches a path outside `form`. */
  lemma {:induction false} MergeKeepsOutsideForm(ctx: Json, order: seq<Field>, q: seq<string>)
    requires q != [] && q[0] != "form"
    ensures Lookup(MergeFields(ctx, order), q) == Lookup(ctx, q)
  {
    if order != [] {
      var init := order[..|order| - 1];
      var f := order[|order| - 1];
      MergeKeepsOutsideForm(ctx, init, q);
      if !IgnoredInput(f.key) {
        FormPathShape(f.key);
        assert FormPath(f.key)[0] == "form";
        WriteKeepsDiverging(MergeFields(ctx, init), FormPath(f.key), q, f.value);
      }
    }
  }

  /** Every other field that counts lands on a path that parts ways with `path`. */
  ghost predicate OthersDiverge(order: seq<Field>, i: nat, path: seq<string>) {
    forall j | 0 <= j < |order| && j != i :: IgnoredInput(order[j].key) || Diverge(FormPath(order[j].key), path)
  }

  /** A field whose path parts ways with every other field's is read back as submitted. */
  lemma {:induction false} MergeReadsBack(ctx: Json, order: seq<Field>, i: nat, path: seq<string>)
    requires i < |order| && !IgnoredInput(order[i].key) && path == FormPath(order[i].key)
    requires OthersDiverge(order, i, path)
    ensures Lookup(MergeFields(ctx, order), path) == Some(order[i].value)
  {
    var n := |order| - 1;
    if i == n {
      LastFieldReadsBack(ctx, order, path);
    } else {
      var init := order[..n];
      assert OthersDiverge(init, i, path) by {
        forall j | 0 <= j < |init| && j != i
          ensures IgnoredInput(init[j].key) || Diverge(FormPath(init[j].key), path)
        {
          assert init[j] == order[j];
        }
      }
      assert init[i] == order[i];
      MergeReadsBack(ctx, init, i, path);
      LaterFieldKeeps(ctx, order, path);
    }
  }

  lemma LastFieldReadsBack(ctx: Json, order: seq<Field>, path: seq<string>)
    requires order != [] && !IgnoredInput(order[|order| - 1].key) && path == FormPath(order[|order| - 1].key)
    ensures Lookup(MergeFields(ctx, order), path) == Some(order[|order| - 1].value)
  {
    ReadBelowWritten(MergeFields(ctx, order[..|order| - 1]), path, [], order[|order| - 1].value);
    assert path + [] == path;
  }

  lemma LaterFieldKeeps(ctx: Json, order: seq<Field>, path: seq<string>)
    requires order != []
    requires IgnoredInput(order[|order| - 1].key) || Diverge(FormPath(order[|order| - 1].key), path)
    ensures Lookup(MergeFields(ctx, order), path) == Lookup(MergeFields(ctx, order[..|order| - 1]), path)
  {
    var f := order[|order| - 1];
    if !IgnoredInput(f.key) {
      WriteKeepsDiverging(MergeFields(ctx, order[..|order| - 1]), FormPath(f.key), path, f.value);
    }
  }

  lemma {:induction false} MergeKeepsDiverging(ctx: Json, order: seq<Field>, path: seq<string>)
    requires OthersDiverge(order, |order|, path)
    ensures Lookup(MergeFields(ctx, order), path) == Lookup(ctx, path)
  {
    if order != [] {
      var init := order[..|order| - 1];
      forall j | 0 <= j < |init| ensures IgnoredInput(init[j].key) || Diverge(FormPath(init[j].key), path) {
        assert init[j] == order[j];
      }
      MergeKeepsDiverging(ctx, init, path);
      LaterFieldKeeps(ctx, order, path);
    }
  }

  /** No name of a field holds a dot. */
  ghost predicate PlainNames(fields: map<string, Json>) {
    forall k | k in fields :: '.' !in k
  }

  /** Whatever the order, a field of a submit with plain names reads back as submitted, and what was not submitted reads
      as before. */
  lemma SubmitReads(ctx: Json, order: seq<Field>, fields: map<string, Json>, key: string)
    requires Lists(order, fields) && PlainNames(fields) && '.' !in key
    requires key !in {"origin", "transactionId", "response", "failure", "failureReason", "failureMessage", "token",
                      "exchangeCode", "exchangeError", "idpInitiated"}
    ensures Lookup(MergeFields(ctx, order), ["form", key])
            == if key in fields then Some(fields[key]) else Lookup(ctx, ["form", key])
  {
    var path := ["form", key];
    PlainFieldLands(key);
    var i := |order|;
    if key in fields {
      i :| 0 <= i < |order| && order[i] == Field(key, fields[key]);
    }
    forall j | 0 <= j < |order| && j != i ensures Diverge(FormPath(order[j].key), path) {
      assert order[j].key in fields && order[j].key != key;
      PlainFieldLands(order[j].key);
      assert FormPath(order[j].key)[1] != path[1];
    }
    if key in fields {
      MergeReadsBack(ctx, order, i, path);
    } else {
      MergeKeepsDiverging(ctx, order, path);
    }
  }
}
