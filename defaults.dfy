/** Default resolution: the value a property has on an instance when it was
    never assigned. Resolution reads the node and changes nothing, so asking
    twice gives the same answer. */
module Defaults {
  import opened Kinds
  import opened Rules
  import opened Catalog

  /** Orders the rules so that accesswidth's default may consult regwidth. */
  function Rank(r: Rule): nat
  {
    if r.variant.AccessWidthDefault? then 1 else 0
  }

  /** `get_default(node)` of the rule's class. */
  function Default(rule: Rule, node: Node): (v: Value)
    ensures rule.variant.BoolPair? && rule.variant.opposite in node.props ==>
      v == PyNot(node.props[rule.variant.opposite])
    ensures rule.variant.BoolPair? && rule.variant.opposite !in node.props ==> v == rule.defaultValue
    ensures rule.variant.NameDefault? ==> v == StrV(node.name)
    ensures rule.variant.WidthDefault? ==> v == IntV(node.width)
    ensures rule.variant.AccessWidthDefault? ==>
      v == if "regwidth" in node.props then node.props["regwidth"] else IntV(32)
    ensures rule.variant.Plain? || rule.variant.Alias? || rule.variant.ErrExtBusCheck? ==> v == rule.defaultValue
    ensures rule.variant.NextCheck? || rule.variant.ResetCheck? ==> v == rule.defaultValue
    decreases Rank(rule), 0
  {
    match rule.variant
    case BoolPair(opposite) =>
      if opposite in node.props then PyNot(node.props[opposite]) else rule.defaultValue
    case NameDefault => StrV(node.name)
    case WidthDefault => IntV(node.width)
    case AccessWidthDefault =>
      RegwidthName();
      Query(RegwidthRule, node)
    case _ => rule.defaultValue
  }

  /** The value a query on the node yields: the explicit value if the
      component has one, else the rule's default. */
  function Query(rule: Rule, node: Node): Value
    decreases Rank(rule), 1
  {
    if Name(rule) in node.props then node.props[Name(rule)] else Default(rule, node)
  }

  /** name reads as its explicit value, else as the instance's name. */
  lemma {:induction false} NameReadsInstanceName(node: Node)
    ensures "name" in node.props ==> Query(NameRule, node) == node.props["name"]
    ensures "name" !in node.props ==> Query(NameRule, node) == StrV(node.name)
  {
    NameName();
  }

  /** signalwidth reads as its explicit value, else as the signal's width. */
  lemma {:induction false} SignalwidthReadsInstanceWidth(node: Node)
    ensures "signalwidth" in node.props ==> Query(SignalwidthRule, node) == node.props["signalwidth"]
    ensures "signalwidth" !in node.props ==> Query(SignalwidthRule, node) == IntV(node.width)
  {
    SignalwidthName();
  }

  /** fieldwidth reads as its explicit value, else as the field's width. */
  lemma {:induction false} FieldwidthReadsInstanceWidth(node: Node)
    ensures "fieldwidth" in node.props ==> Query(FieldwidthRule, node) == node.props["fieldwidth"]
    ensures "fieldwidth" !in node.props ==> Query(FieldwidthRule, node) == IntV(node.width)
  {
    FieldwidthName();
  }
}
