/** The property rule record: the static attributes every rule class
    declares, the behaviour its class overrides, and the property name
    derived from the class name. */
module Rules {
  import opened Kinds

  /** Which of the base class's operations a rule class overrides, and how. */
  datatype Variant =
    | Plain                       // PropertyRule as it is
    | BoolPair(opposite: string)  // PropertyRuleBoolPair: assign clears the opposite, default negates it
    | Alias(canonical: string)    // assign also writes the value under `canonical`
    | NameDefault                 // default is the instance's name
    | WidthDefault                // default is the instance's width
    | AccessWidthDefault          // default is the register's regwidth property
    | ErrExtBusCheck              // validate: errextbus only on external instances
    | NextCheck                   // validate: next may not reference its own field
    | ResetCheck                  // validate: reset fits the field and references a same-width field

  /** The class attributes of one rule class. `mutexGroup` and
      `dynAssignAllowed` are declared data that no operation here reads. */
  datatype Rule = Rule(
    className: string,
    bindableTo: set<CompKind>,
    validTypes: seq<TypeTag>,
    defaultValue: Value,
    dynAssignAllowed: bool,
    mutexGroup: Option<string>,
    variant: Variant)

  const Prefix: string := "Prop_"

  /** Python's `s.replace(pat, rep)`: every non-overlapping occurrence of
      `pat`, scanning left to right, is replaced by `rep`. */
  function ReplaceAll(s: string, pat: string, rep: string): (r: string)
    requires |pat| > 0
    ensures rep == [] ==> |r| <= |s|
    decreases |s|
  {
    if |s| < |pat| then s
    else if s[..|pat|] == pat then rep + ReplaceAll(s[|pat|..], pat, rep)
    else [s[0]] + ReplaceAll(s[1..], pat, rep)
  }

  /** `get_name()`: the class name with "Prop_" removed. */
  function Name(r: Rule): string
  {
    ReplaceAll(r.className, Prefix, "")
  }

  /** `__name__.startswith("Prop_")`: the classes the rule book registers. */
  predicate IsPropClass(r: Rule)
  {
    |Prefix| <= |r.className| && r.className[..|Prefix|] == Prefix
  }

  /** A string that never contains the pattern's first character is left as it is. */
  lemma {:induction false} ReplaceAbsent(s: string, pat: string, rep: string)
    requires |pat| > 0 && pat[0] !in s
    ensures ReplaceAll(s, pat, rep) == s
    decreases |s|
  {
    if |s| >= |pat| {
      assert s[..|pat|][0] == s[0];
      assert s[..|pat|] != pat;
      assert pat[0] !in s[1..] by {
        forall j | 0 <= j < |s[1..]| ensures s[1..][j] != pat[0] {
          assert s[1..][j] == s[j + 1];
        }
      }
      ReplaceAbsent(s[1..], pat, rep);
      assert [s[0]] + s[1..] == s;
    }
  }

  /** The class `Prop_x`, where `x` has no capital P, is named `x`. */
  lemma {:induction false} StripsPrefix(x: string)
    requires 'P' !in x
    ensures ReplaceAll(Prefix + x, Prefix, "") == x
  {
    var s := Prefix + x;
    assert s[..|Prefix|] == Prefix;
    assert s[|Prefix|..] == x;
    ReplaceAbsent(x, Prefix, "");
  }

  /** A rule whose class is `Prop_x`, with no capital P in `x`, is registered
      and has the property name `x`. */
  lemma NameOfPropClass(r: Rule, x: string)
    requires r.className == Prefix + x && 'P' !in x
    ensures IsPropClass(r) && Name(r) == x
  {
    StripsPrefix(x);
    assert r.className[..|Prefix|] == Prefix;
  }

  /** Two paired-boolean rules that name each other as their opposite. */
  predicate MutualPair(r: Rule, s: Rule)
  {
    r.variant == BoolPair(Name(s)) && s.variant == BoolPair(Name(r)) && Name(r) != Name(s)
  }

  /** The keys an assignment by the rule may write or delete. */
  function Touched(rule: Rule): set<string>
  {
    match rule.variant
    case BoolPair(opposite) => {Name(rule), opposite}
    case Alias(canonical) => {Name(rule), canonical}
    case _ => {Name(rule)}
  }

  /** The rule neither writes nor deletes any of the keys. */
  predicate Avoids(rule: Rule, keys: set<string>)
  {
    Name(rule) !in keys &&
    match rule.variant
    case BoolPair(opposite) => opposite !in keys
    case Alias(canonical) => canonical !in keys
    case _ => true
  }

  lemma AvoidsDisjoint(rule: Rule, keys: set<string>)
    requires Avoids(rule, keys)
    ensures Touched(rule) !! keys
  {
  }
}
