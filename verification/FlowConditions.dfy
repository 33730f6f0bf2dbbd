/** How a condition task picks its branch from the context. */
module FlowConditions {
  import opened Wrappers
  import opened Json
  import opened FlowGraph
  import opened FlowRun
  import opened SsoJit

  function AsText(host: Host, v: Json): string {
    match v
    case Null => ""
    case Str(s) => s
    case _ => host.jsonText(v)
  }

  function ResolveValue(host: Host, arg: Json, ctx: Json): Json {
    var v := Child(arg, "value");
    if Child(arg, "type") == Str("context") then GetPath(ctx, SplitDots(if v.Str? then v.s else ""))
    else if v.Str? then Str(host.render(v.s, ctx))
    else v
  }

  function AsciiLower(c: char): char {
    if 'A' <= c <= 'Z' then c - 'A' + 'a' else c
  }

  /** The same letters, but for the case of the ASCII ones. */
  predicate SameLetters(s: string, t: string) {
    |s| == |t| && forall i | 0 <= i < |s| :: AsciiLower(s[i]) == AsciiLower(t[i])
  }

  function Truthy(v: Json): bool {
    match v
    case Bool(b) => b
    case Str(s) => SameLetters(s, "true")
    case Number(n) => n != 0.0
    case _ => false
  }

  function IsEmpty(v: Json): bool {
    match v
    case Null => true
    case Str(s) => s == ""
    case Arr(items) => items == []
    case Obj(fields) => |fields| == 0
    case _ => false
  }

  function NumberOf(host: Host, v: Json): Option<real> {
    match v
    case Number(n) => Some(n)
    case Str(s) => host.parseNumber(host.trim(s))
    case _ => None
  }

  predicate LooksLikeEmail(host: Host, text: string) {
    var parts := SplitAt(host.trim(text));
    parts.Some? &&
      var (user, domain) := parts.value;
      user != "" && '.' in domain && domain[0] != '.' && domain[|domain| - 1] != '.' && '@' !in domain
  }

  predicate ContainsText(text: string, part: string) {
    part <= text || (text != "" && ContainsText(text[1..], part))
  }

  predicate AtomHolds(host: Host, atom: Atom, ctx: Json) {
    var target := ResolveValue(host, atom.target, ctx);
    var wanted := ResolveValue(host, atom.predicate_, ctx);
    var a, b := NumberOf(host, target), NumberOf(host, wanted);
    var both := a.Some? && b.Some?;
    match atom.operator
    case "is-true" => Truthy(target)
    case "is-false" => !Truthy(target)
    case "equal" => AsText(host, target) == AsText(host, wanted)
    case "not-equal" => AsText(host, target) != AsText(host, wanted)
    case "contains" => ContainsText(AsText(host, target), AsText(host, wanted))
    case "greater-than" => both && a.value > b.value
    case "greater-than-or-equal" => both && a.value >= b.value
    case "less-than" => both && a.value < b.value
    case "less-than-or-equal" => both && a.value <= b.value
    case "empty" => IsEmpty(target)
    case "not-empty" => !IsEmpty(target)
    case "is-email" => LooksLikeEmail(host, AsText(host, target))
    case "is-not-email" => !LooksLikeEmail(host, AsText(host, target))
    case _ => false
  }

  /** A case is taken when it is not the else case, has conditions, and all of them hold. */
  ghost predicate Taken(host: Host, c: Case, ctx: Json) {
    c.interactionId != "ELSE" && c.atoms != [] && forall i | 0 <= i < |c.atoms| :: AtomHolds(host, c.atoms[i], ctx)
  }

  /** The interaction of the first case taken, or `ELSE`. */
  ghost function BranchOf(host: Host, cases: seq<Case>, ctx: Json): string {
    if cases == [] then "ELSE" else if Taken(host, cases[0], ctx) then cases[0].interactionId
    else BranchOf(host, cases[1..], ctx)
  }

  method AllAtomsHold(host: Host, atoms: seq<Atom>, ctx: Json) returns (all: bool)
    ensures all <==> forall i | 0 <= i < |atoms| :: AtomHolds(host, atoms[i], ctx)
  {
    var i := 0;
    while i < |atoms|
      invariant 0 <= i <= |atoms|
      invariant forall j | 0 <= j < i :: AtomHolds(host, atoms[j], ctx)
    {
      if !AtomHolds(host, atoms[i], ctx) {
        return false;
      }
      i := i + 1;
    }
    return true;
  }

  /** The interaction of the first case taken, wherever the else case stands, or `ELSE`. */
  method EvaluateCondition(host: Host, cases: seq<Case>, ctx: Json) returns (interaction: string)
    ensures interaction == BranchOf(host, cases, ctx)
    ensures (forall i | 0 <= i < |cases| :: !Taken(host, cases[i], ctx)) ==> interaction == "ELSE"
    ensures (exists i | 0 <= i < |cases| :: Taken(host, cases[i], ctx)) ==>
              exists i | 0 <= i < |cases| :: Taken(host, cases[i], ctx) && cases[i].interactionId == interaction
                         && forall j | 0 <= j < i :: !Taken(host, cases[j], ctx)
  {
    var otherwise := "ELSE";
    var i := 0;
    while i < |cases|
      invariant 0 <= i <= |cases| && otherwise == "ELSE"
      invariant forall j | 0 <= j < i :: !Taken(host, cases[j], ctx)
      invariant BranchOf(host, cases, ctx) == BranchOf(host, cases[i..], ctx)
    {
      assert cases[i..][0] == cases[i] && cases[i..][1..] == cases[i + 1..];
      var c := cases[i];
      if c.interactionId == "ELSE" {
        otherwise := c.interactionId;
      } else if c.atoms != [] {
        var all := AllAtomsHold(host, c.atoms, ctx);
        if all {
          return c.interactionId;
        }
      }
      i := i + 1;
    }
    return otherwise;
  }
}
