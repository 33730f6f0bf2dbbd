/** What a flow author's conditions mean, operator by operator. */
module ConditionLaws {
  import opened Wrappers
  import opened Json
  import opened FlowGraph
  import opened FlowRun
  import opened FlowConditions
  import opened SsoJit

  /** An operand read from the context. */
  function Ref(path: string): Json {
    Obj(map["type" := Str("context"), "value" := Str(path)])
  }

  /** An operand written into the condition; text is a template. */
  function Inline(v: Json): Json {
    Obj(map["type" := Str("inline"), "value" := v])
  }

  /** What an operand stands for. */
  ghost predicate StandsFor(host: Host, operand: Json, ctx: Json, v: Json) {
    || (exists path :: operand == Ref(path) && v == GetPath(ctx, SplitDots(path)))
    || (operand == Inline(v) && !v.Str?)
    || (exists template :: operand == Inline(Str(template)) && v == Str(host.render(template, ctx)))
  }

  lemma Resolved(host: Host, operand: Json, ctx: Json, v: Json)
    requires StandsFor(host, operand, ctx, v)
    ensures ResolveValue(host, operand, ctx) == v
  {
  }

  /** A path that is no text is the empty one. */
  lemma NoPathReads(host: Host, operand: Json, ctx: Json)
    requires GetPath(operand, ["type"]) == Str("context") && !GetPath(operand, ["value"]).Str?
    ensures ResolveValue(host, operand, ctx) == GetPath(ctx, [""])
  {
    ReadOne(operand, "type");
    ReadOne(operand, "value");
    SplitPlain("");
  }

  /** A condition with this one test takes its own branch. */
  ghost predicate Branches(host: Host, operator: string, target: Json, wanted: Json, ctx: Json) {
    BranchOf(host, [Case("TAKEN", [Atom(operator, target, wanted)])], ctx) == "TAKEN"
  }

  lemma BranchesIff(host: Host, operator: string, target: Json, wanted: Json, ctx: Json)
    ensures Branches(host, operator, target, wanted, ctx) <==> AtomHolds(host, Atom(operator, target, wanted), ctx)
  {
    hide AtomHolds;
    var atom := Atom(operator, target, wanted);
    var c := Case("TAKEN", [atom]);
    assert [c][1..] == [];
    assert c.atoms[0] == atom && |c.atoms| == 1;
    assert c.interactionId != "ELSE" by { assert |c.interactionId| == 5; }
    assert Taken(host, c, ctx) <==> AtomHolds(host, c.atoms[0], ctx);
    assert BranchOf(host, [c], ctx) == if Taken(host, [c][0], ctx) then [c][0].interactionId else "ELSE";
  }

  // --------------------------------------------------------- one test each

  ghost predicate SpellsTrue(s: string) {
    |s| == 4 && s[0] in {'t', 'T'} && s[1] in {'r', 'R'} && s[2] in {'u', 'U'} && s[3] in {'e', 'E'}
  }

  /** True, text that spells it, and any number but zero; everything else is false. */
  lemma TrueOrFalse(host: Host, target: Json, wanted: Json, ctx: Json, x: Json)
    requires StandsFor(host, target, ctx, x)
    ensures Branches(host, "is-true", target, wanted, ctx)
       <==> x == Bool(true) || (x.Str? && SpellsTrue(x.s)) || (x.Number? && x.n != 0.0)
    ensures Branches(host, "is-false", target, wanted, ctx) <==> !Branches(host, "is-true", target, wanted, ctx)
  {
    hide Branches, StandsFor;
    Resolved(host, target, ctx, x);
    BranchesIff(host, "is-true", target, wanted, ctx);
    BranchesIff(host, "is-false", target, wanted, ctx);
    if x.Str? {
      LettersOfTrue(x.s);
    }
  }

  lemma LettersOfTrue(s: string)
    ensures SameLetters(s, "true") <==> SpellsTrue(s)
  {
    if |s| == 4 {
      assert SameLetters(s, "true") <==> forall i | 0 <= i < 4 :: AsciiLower(s[i]) == AsciiLower("true"[i]);
      assert AsciiLower("true"[0]) == 't' && AsciiLower("true"[1]) == 'r';
      assert AsciiLower("true"[2]) == 'u' && AsciiLower("true"[3]) == 'e';
    }
  }

  /** A number, or text that parses as one. */
  ghost predicate Counts(host: Host, v: Json, n: real) {
    v == Number(n) || (v.Str? && host.parseNumber(host.trim(v.s)) == Some(n))
  }

  /** Two numbers compare by their order. */
  lemma NumbersCompare(host: Host, target: Json, wanted: Json, ctx: Json, x: Json, y: Json, a: real, b: real)
    requires StandsFor(host, target, ctx, x) && StandsFor(host, wanted, ctx, y)
    requires Counts(host, x, a) && Counts(host, y, b)
    ensures Branches(host, "greater-than", target, wanted, ctx) <==> b < a
    ensures Branches(host, "greater-than-or-equal", target, wanted, ctx) <==> b <= a
    ensures Branches(host, "less-than", target, wanted, ctx) <==> a < b
    ensures Branches(host, "less-than-or-equal", target, wanted, ctx) <==> a <= b
  {
    hide Branches, StandsFor;
    Resolved(host, target, ctx, x);
    Resolved(host, wanted, ctx, y);
    BranchesIff(host, "greater-than", target, wanted, ctx);
    BranchesIff(host, "greater-than-or-equal", target, wanted, ctx);
    BranchesIff(host, "less-than", target, wanted, ctx);
    BranchesIff(host, "less-than-or-equal", target, wanted, ctx);
  }

  /** What is no number compares with nothing. */
  lemma OthersDoNotCompare(host: Host, target: Json, wanted: Json, ctx: Json, x: Json, y: Json, operator: string)
    requires StandsFor(host, target, ctx, x) && StandsFor(host, wanted, ctx, y)
    requires (forall n :: !Counts(host, x, n)) || (forall n :: !Counts(host, y, n))
    requires operator in {"greater-than", "greater-than-or-equal", "less-than", "less-than-or-equal"}
    ensures !Branches(host, operator, target, wanted, ctx)
  {
    hide Branches, StandsFor;
    Resolved(host, target, ctx, x);
    Resolved(host, wanted, ctx, y);
    BranchesIff(host, operator, target, wanted, ctx);
    var a, b := NumberOf(host, x), NumberOf(host, y);
    assert a.Some? ==> Counts(host, x, a.value);
    assert b.Some? ==> Counts(host, y, b.value);
  }

  /** Nothing is the empty text, text is itself, and anything else is its JSON. */
  ghost predicate Reads(host: Host, v: Json, text: string) {
    (v == Null && text == "") || v == Str(text) || (v != Null && !v.Str? && text == host.jsonText(v))
  }

  lemma {:induction false} PartIff(text: string, part: string)
    ensures ContainsText(text, part) <==> exists before: string, after: string :: text == before + part + after
  {
    if part <= text {
      assert text == "" + part + text[|part|..];
    } else if text != "" {
      PartIff(text[1..], part);
      if ContainsText(text[1..], part) {
        var before: string, after: string :| text[1..] == before + part + after;
        assert text == ([text[0]] + before) + part + after;
      }
      forall before: string, after: string | text == before + part + after ensures ContainsText(text, part) {
        assert before == "" ==> text == part + after;
        assert text[1..] == before[1..] + part + after;
      }
    } else {
      assert part != "";
      assert forall before: string, after: string :: |before + part + after| > 0;
    }
  }

  /** Equality and containment are of the texts. */
  lemma TextsCompare(host: Host, target: Json, wanted: Json, ctx: Json, x: Json, y: Json, s: string, t: string)
    requires StandsFor(host, target, ctx, x) && StandsFor(host, wanted, ctx, y) && Reads(host, x, s)
             && Reads(host, y, t)
    ensures Branches(host, "equal", target, wanted, ctx) <==> s == t
    ensures Branches(host, "not-equal", target, wanted, ctx) <==> s != t
    ensures Branches(host, "contains", target, wanted, ctx)
       <==> exists before: string, after: string :: s == before + t + after
  {
    hide Branches, StandsFor, ContainsText;
    Resolved(host, target, ctx, x);
    Resolved(host, wanted, ctx, y);
    BranchesIff(host, "equal", target, wanted, ctx);
    BranchesIff(host, "not-equal", target, wanted, ctx);
    BranchesIff(host, "contains", target, wanted, ctx);
    PartIff(s, t);
  }

  /** Nothing, the empty text, list and object are empty; numbers and truth values never are. */
  lemma EmptyOrNot(host: Host, target: Json, wanted: Json, ctx: Json, x: Json)
    requires StandsFor(host, target, ctx, x)
    ensures Branches(host, "empty", target, wanted, ctx) <==> x in {Null, Str(""), Arr([]), Obj(map[])}
    ensures Branches(host, "not-empty", target, wanted, ctx) <==> x !in {Null, Str(""), Arr([]), Obj(map[])}
  {
    hide Branches, StandsFor;
    Resolved(host, target, ctx, x);
    BranchesIff(host, "empty", target, wanted, ctx);
    BranchesIff(host, "not-empty", target, wanted, ctx);
    if x.Obj? && |x.fields| == 0 {
      assert x.fields == map[];
    }
  }

  /** A local part, one `@`, and a domain with a dot inside. */
  ghost predicate MailShaped(text: string, local: string, domain: string) {
    && text == local + "@" + domain && local != "" && '@' !in local && '@' !in domain
    && '.' in domain && domain[0] != '.' && domain[|domain| - 1] != '.'
  }

  lemma MailIff(host: Host, text: string)
    ensures LooksLikeEmail(host, text) <==> exists local, domain :: MailShaped(host.trim(text), local, domain)
  {
    var t := host.trim(text);
    if LooksLikeEmail(host, text) {
      var (local, domain) := SplitAt(t).value;
      assert MailShaped(t, local, domain);
    }
    forall local, domain | MailShaped(t, local, domain) ensures LooksLikeEmail(host, text) {
      SplitAtFirst(local, domain);
    }
  }

  lemma MailOrNot(host: Host, target: Json, wanted: Json, ctx: Json, x: Json, s: string)
    requires StandsFor(host, target, ctx, x) && Reads(host, x, s)
    ensures Branches(host, "is-email", target, wanted, ctx)
       <==> exists local, domain :: MailShaped(host.trim(s), local, domain)
    ensures Branches(host, "is-not-email", target, wanted, ctx) <==> !Branches(host, "is-email", target, wanted, ctx)
  {
    hide Branches, StandsFor, LooksLikeEmail;
    Resolved(host, target, ctx, x);
    BranchesIff(host, "is-email", target, wanted, ctx);
    BranchesIff(host, "is-not-email", target, wanted, ctx);
    MailIff(host, s);
  }

  const OPERATORS: set<string> :=
    {"is-true", "is-false", "equal", "not-equal", "contains", "greater-than", "greater-than-or-equal", "less-than",
     "less-than-or-equal", "empty", "not-empty", "is-email", "is-not-email"}

  /** A test with any other operator never holds. */
  lemma OtherOperatorsFail(host: Host, operator: string, target: Json, wanted: Json, ctx: Json)
    requires operator !in OPERATORS
    ensures !Branches(host, operator, target, wanted, ctx)
  {
    hide Branches;
    BranchesIff(host, operator, target, wanted, ctx);
  }

  // ------------------------------------------------------- cases and lists

  /** A case is taken when it has tests and would be taken for each of them alone. */
  lemma CaseNeedsAll(host: Host, name: string, atoms: seq<Atom>, ctx: Json)
    requires name != "ELSE"
    ensures BranchOf(host, [Case(name, atoms)], ctx) == name
       <==> atoms != [] && forall i | 0 <= i < |atoms| ::
              Branches(host, atoms[i].operator, atoms[i].target, atoms[i].predicate_, ctx)
    ensures BranchOf(host, [Case(name, atoms)], ctx) in {name, "ELSE"}
  {
    hide AtomHolds, Branches;
    var c := Case(name, atoms);
    assert [c][1..] == [];
    forall i | 0 <= i < |atoms|
      ensures Branches(host, atoms[i].operator, atoms[i].target, atoms[i].predicate_, ctx)
         <==> AtomHolds(host, atoms[i], ctx)
    {
      BranchesIff(host, atoms[i].operator, atoms[i].target, atoms[i].predicate_, ctx);
    }
  }

  /** Of several cases the first that would be taken alone is. */
  lemma {:induction false} FirstCaseCounts(host: Host, cases: seq<Case>, i: nat, ctx: Json)
    requires i <= |cases| && forall j | 0 <= j < i :: BranchOf(host, [cases[j]], ctx) == "ELSE"
    requires i < |cases| ==> BranchOf(host, [cases[i]], ctx) != "ELSE"
    ensures BranchOf(host, cases, ctx) == if i < |cases| then cases[i].interactionId else "ELSE"
  {
    hide AtomHolds;
    if cases != [] {
      assert [cases[0]][1..] == [];
      assert BranchOf(host, [cases[0]], ctx) == if Taken(host, cases[0], ctx) then cases[0].interactionId else "ELSE";
      if i > 0 {
        assert forall j | 0 <= j < |cases| - 1 :: cases[1..][j] == cases[j + 1];
        FirstCaseCounts(host, cases[1..], i - 1, ctx);
      }
    }
  }
}
