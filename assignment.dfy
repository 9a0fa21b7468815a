/** Assignment of a property value to a component definition: the binding
    check, the type check against the rule's valid types, and the store with
    the side effects of paired and alias rules. */
module Assignment {
  import opened Kinds
  import opened Rules
  import opened Catalog
  import opened Defaults

  /** Why `msg.fatal` stopped an assignment. */
  datatype FatalReason = NotBindable | Incompatible

  /** How `assign_value` ends: it stores the value, stops with a fatal
      message, or raises RuntimeError on a value it cannot classify. */
  datatype AssignOutcome = Assigned | Fatal(reason: FatalReason) | InternalFault

  /** The type is castable to at least one entry of the list. */
  predicate CastableToSome(ev: Evaluator, t: TypeTag, validTypes: seq<TypeTag>)
  {
    exists i :: 0 <= i < |validTypes| && ev.isCastable(t, validTypes[i])
  }

  /** The values classification rejects. */
  predicate Unclassifiable(v: Value)
  {
    v.NoneV? || v.IntV? || v.StrV? || v.AccessV? || v.AddressingV? || v.RefV?
  }

  /** The search over `valid_types` that stops at the first entry the type
      is castable to. */
  method FindCastable(ev: Evaluator, t: TypeTag, validTypes: seq<TypeTag>) returns (found: bool)
    ensures found <==> CastableToSome(ev, t, validTypes)
  {
    found := false;
    var i := 0;
    while i < |validTypes|
      invariant 0 <= i <= |validTypes|
      invariant forall j :: 0 <= j < i ==> !ev.isCastable(t, validTypes[j])
    {
      if ev.isCastable(t, validTypes[i]) {
        found := true;
        break;
      }
      i := i + 1;
    }
  }

  /** How an assignment of `value` by `rule` to a component of class `kind` ends. */
  function Verdict(rule: Rule, kind: CompKind, value: Value, ev: Evaluator): (r: AssignOutcome)
    ensures r == Fatal(NotBindable) <==> kind !in rule.bindableTo
    ensures r == InternalFault <==> kind in rule.bindableTo && Unclassifiable(value)
    ensures r == Fatal(Incompatible) <==>
      kind in rule.bindableTo && Classify(value, ev).Some? &&
      !CastableToSome(ev, Classify(value, ev).value, rule.validTypes)
    ensures kind in rule.bindableTo && value.BoolV? ==>
      (r == Assigned <==> CastableToSome(ev, BoolT, rule.validTypes))
    ensures kind in rule.bindableTo && value.PrecedenceV? ==>
      (r == Assigned <==> CastableToSome(ev, PrecedenceT, rule.validTypes))
    ensures kind in rule.bindableTo && value.UserEnumV? ==>
      (r == Assigned <==> CastableToSome(ev, UserEnumT, rule.validTypes))
    ensures kind in rule.bindableTo && value.ExprV? ==>
      (r == Assigned <==> CastableToSome(ev, ev.predictType(value.expr), rule.validTypes))
  {
    if kind !in rule.bindableTo then Fatal(NotBindable)
    else match Classify(value, ev)
      case None => InternalFault
      case Some(t) => if CastableToSome(ev, t, rule.validTypes) then Assigned else Fatal(Incompatible)
  }

  /** The property map after a successful assignment of `v` by `rule`. */
  function Written(rule: Rule, m: map<string, Value>, v: Value): (m': map<string, Value>)
    ensures !(rule.variant.BoolPair? && rule.variant.opposite == Name(rule)) ==>
      Name(rule) in m' && m'[Name(rule)] == v
    ensures rule.variant.BoolPair? ==> rule.variant.opposite !in m'
    ensures rule.variant.Alias? ==> rule.variant.canonical in m' && m'[rule.variant.canonical] == v
    ensures forall k :: k !in Touched(rule) ==> (k in m' <==> k in m)
    ensures forall k :: k !in Touched(rule) && k in m ==> m'[k] == m[k]
  {
    var stored := m[Name(rule) := v];
    match rule.variant
    case BoolPair(opposite) => if opposite in stored then stored - {opposite} else stored
    case Alias(canonical) => stored[canonical := v]
    case _ => stored
  }

  /** A component definition and its explicit property assignments. */
  class CompDef {
    const kind: CompKind
    var properties: map<string, Value>

    constructor (kind: CompKind)
      ensures this.kind == kind && properties == map[]
    {
      this.kind := kind;
      properties := map[];
    }

    /** `assign_value(comp_def, value, err_ctx)` of the rule's class. */
    method AssignValue(rule: Rule, value: Value, ev: Evaluator) returns (r: AssignOutcome)
      modifies this
      ensures r == Verdict(rule, kind, value, ev)
      ensures properties == if r == Assigned then Written(rule, old(properties), value) else old(properties)
    {
      if kind !in rule.bindableTo {
        return Fatal(NotBindable);
      }
      var t: TypeTag;
      match value {
        case BoolV(_) => t := BoolT;
        case PrecedenceV(_) => t := PrecedenceT;
        case ExprV(e) => t := ev.predictType(e);
        case UserEnumV(_, _) => t := UserEnumT;
        case _ => return InternalFault;
      }
      var ok := FindCastable(ev, t, rule.validTypes);
      if !ok {
        return Fatal(Incompatible);
      }
      properties := properties[Name(rule) := value];
      match rule.variant {
        case BoolPair(opposite) =>
          if opposite in properties {
            properties := properties - {opposite};
          }
        case Alias(canonical) =>
          properties := properties[canonical := value];
        case _ =>
      }
      r := Assigned;
    }
  }

  /** Neither of two keys is added by a rule that touches neither, and a
      paired rule of the two leaves exactly one. */
  lemma {:induction false} PairExclusionPreserved(rule: Rule, a: string, b: string, m: map<string, Value>, v: Value)
    requires !(a in m && b in m)
    requires (Name(rule) == a && rule.variant == BoolPair(b) && a != b) ||
             (Name(rule) == b && rule.variant == BoolPair(a) && a != b) ||
             (a !in Touched(rule) && b !in Touched(rule))
    ensures !(a in Written(rule, m, v) && b in Written(rule, m, v))
  {
  }

  /** After one rule of a mutual pair assigns the bool `b`, querying it gives
      `b` and querying its opposite gives `not b`. */
  lemma {:induction false} PairedDefaultsAgree(r: Rule, s: Rule, m: map<string, Value>, b: bool, node: Node)
    requires MutualPair(r, s)
    requires node.props == Written(r, m, BoolV(b))
    ensures Query(r, node) == BoolV(b)
    ensures Query(s, node) == BoolV(!b)
  {
  }

  /** Assigning sync, async, msb0 or lsb0 leaves that name set and its
      opposite absent, whatever was there before. */
  lemma {:induction false} PairAssignLeavesOne(m: map<string, Value>, v: Value)
    ensures "sync" in Written(SyncRule, m, v) && "async" !in Written(SyncRule, m, v)
    ensures "async" in Written(AsyncRule, m, v) && "sync" !in Written(AsyncRule, m, v)
    ensures "msb0" in Written(Msb0Rule, m, v) && "lsb0" !in Written(Msb0Rule, m, v)
    ensures "lsb0" in Written(Lsb0Rule, m, v) && "msb0" !in Written(Lsb0Rule, m, v)
  {
    PairsAreMutual();
  }

  /** threshold and saturate store the value under their own name and under
      the canonical incr- name, and nothing else; incrthreshold and
      incrsaturate store it once, under their own name. */
  lemma {:induction false} AliasAssignWritesBoth(m: map<string, Value>, v: Value)
    ensures Written(ThresholdRule, m, v) == m["threshold" := v]["incrthreshold" := v]
    ensures Written(SaturateRule, m, v) == m["saturate" := v]["incrsaturate" := v]
    ensures Written(IncrthresholdRule, m, v) == m["incrthreshold" := v]
    ensures Written(IncrsaturateRule, m, v) == m["incrsaturate" := v]
  {
    ThresholdName();
    SaturateName();
    IncrthresholdName();
    IncrsaturateName();
  }

  /** accesswidth follows regwidth: once regwidth is assigned, the default
      of accesswidth is that value; while it is unassigned, it is 32. */
  lemma {:induction false} AccessWidthFollowsRegwidth(m: map<string, Value>, v: Value, node: Node)
    ensures node.props == Written(RegwidthRule, m, v) ==> Default(AccesswidthRule, node) == v
    ensures "regwidth" !in node.props ==> Default(AccesswidthRule, node) == IntV(32)
  {
  }

  /** Neither paired relation has both of its names set. */
  predicate PairsExclusive(m: map<string, Value>)
  {
    !("sync" in m && "async" in m) && !("msb0" in m && "lsb0" in m)
  }

  /** Assigning one of the four paired rules keeps both relations exclusive. */
  lemma {:induction false} PairAssignKeepsPairsExclusive(rule: Rule, m: map<string, Value>, v: Value)
    requires rule == SyncRule || rule == AsyncRule || rule == Msb0Rule || rule == Lsb0Rule
    requires PairsExclusive(m)
    ensures PairsExclusive(Written(rule, m, v))
  {
    PairsAreMutual();
    PairExclusionPreserved(rule, "sync", "async", m, v);
    PairExclusionPreserved(rule, "msb0", "lsb0", m, v);
  }

  /** Assigning any registered built-in rule keeps sync/async and msb0/lsb0
      mutually exclusive: the paired rules delete their opposite, and no other
      rule writes or deletes any of the four names. */
  lemma {:induction false} CatalogAssignKeepsPairsExclusive(rule: Rule, m: map<string, Value>, v: Value)
    requires rule in Classes && IsPropClass(rule)
    requires PairsExclusive(m)
    ensures PairsExclusive(Written(rule, m, v))
  {
    if rule in BoolPairSubclasses {
      PairAssignKeepsPairsExclusive(rule, m, v);
    } else {
      OnlyPairsTouchPairKeys();
      AvoidsDisjoint(rule, PairKeys);
      PairExclusionPreserved(rule, "sync", "async", m, v);
      PairExclusionPreserved(rule, "msb0", "lsb0", m, v);
    }
  }
}
