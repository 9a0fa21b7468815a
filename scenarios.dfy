/** Concrete situations the rule engine is meant to handle, stated on the
    catalog's own rules. */
module Scenarios {
  import opened Kinds
  import opened Rules
  import opened Catalog
  import opened Defaults
  import opened Validation
  import opened Assignment

  /** A 4-bit field with reset value 20 reports that 20 does not fit, since
      20 >= 2^4; 15 fits. */
  lemma {:induction false} ResetExceedsWidth(node: Node)
    requires node.width == 4
    ensures Validate(ResetRule, node, IntV(20)) == Reported([ResetTooWide(20, 4)])
    ensures Validate(ResetRule, node, IntV(15)) == Reported([])
  {
  }

  /** A field whose next names the field itself reports a self-reference,
      and so does a reset that names it; a reset naming another field of the
      same width reports nothing. */
  lemma {:induction false} SelfReferences(node: Node, other: NodeRef)
    requires other.kind == Field && other.path != node.path && other.width == node.width
    ensures Validate(NextRule, node, RefV(NodeRef(Field, node.path, node.width))) == Reported([NextSelfReference])
    ensures Validate(ResetRule, node, RefV(NodeRef(Field, node.path, node.width))) == Reported([ResetSelfReference])
    ensures Validate(ResetRule, node, RefV(other)) == Reported([])
  {
  }

  /** errextbus set to true on an instance that is not external is an
      error; on an external one it is not. */
  lemma {:induction false} ErrExtBusNeedsExternal(node: Node)
    ensures !node.external ==> Validate(ErrextbusRule, node, BoolV(true)) == Reported([NotExternal])
    ensures node.external ==> Validate(ErrextbusRule, node, BoolV(true)) == Reported([])
  {
  }

  /** A signal of width 8 without an explicit signalwidth has signalwidth 8;
      a register whose regwidth is 16 has accesswidth 16 by default. */
  lemma {:induction false} ContextDefaults(node: Node)
    ensures node.width == 8 ==> Default(SignalwidthRule, node) == IntV(8)
    ensures node.props == map["regwidth" := IntV(16)] ==> Default(AccesswidthRule, node) == IntV(16)
  {
  }

  /** Assigning async on a signal that had sync leaves only async, and then
      sync reads as the negation of async. */
  lemma {:induction false} AsyncOverridesSync(node: Node)
    requires node.props == Written(AsyncRule, map["sync" := BoolV(true)], BoolV(true))
    ensures "async" in node.props && "sync" !in node.props
    ensures Query(SyncRule, node) == BoolV(false)
  {
    PairsAreMutual();
    PairedDefaultsAgree(AsyncRule, SyncRule, map["sync" := BoolV(true)], true, node);
  }
}
