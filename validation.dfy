/** The checks rules run on an elaborated instance after the tree exists.
    Each check only reports errors; none of them stops the others. */
module Validation {
  import opened Kinds
  import opened Rules

  /** The errors a validator reports. */
  datatype Diagnostic =
    | NotExternal                                 // errextbus is true on an instance that is not external
    | NextSelfReference                           // next names the field itself
    | ResetSelfReference                          // reset names the field itself
    | ResetTooWide(value: int, width: nat)        // an integer reset that does not fit the field
    | ResetWidthMismatch(width: nat, other: nat)  // reset names a field of another width

  /** The errors reported, or the internal fault the source raises
      (RuntimeError for a reset of the wrong sort, and the failed attribute
      lookup when next holds something that is not a node). */
  datatype Checked = Reported(errors: seq<Diagnostic>) | InternalFault

  function Pow2(n: nat): (p: nat)
    ensures p >= 1
  {
    if n == 0 then 1 else 2 * Pow2(n - 1)
  }

  /** `Prop_errextbus.validate`: errextbus may be true only on an external instance. */
  function ErrExtBusErrors(node: Node, value: Value): (errors: seq<Diagnostic>)
    ensures NotExternal in errors <==> !node.external && EqualsTrue(value)
    ensures forall d :: d in errors ==> d == NotExternal
    ensures |errors| <= 1
  {
    if !node.external && EqualsTrue(value) then [NotExternal] else []
  }

  /** `Prop_next.validate`: next may not name the field itself. A value that is
      not a node has no path, and the lookup fails. */
  function NextChecked(node: Node, value: Value): (c: Checked)
    ensures c.InternalFault? <==> !value.RefV?
    ensures c.Reported? ==> (NextSelfReference in c.errors <==> value.target.path == node.path)
    ensures c.Reported? ==> forall d :: d in c.errors ==> d == NextSelfReference
    ensures c.Reported? ==> |c.errors| <= 1
  {
    if value.RefV? then
      Reported(if node.path == value.target.path then [NextSelfReference] else [])
    else InternalFault
  }

  /** `Prop_reset.validate`: an integer reset must fit the field's width; a
      field reset must have the same width and must not be the field itself;
      any other value raises RuntimeError. */
  function ResetChecked(node: Node, value: Value): (c: Checked)
    ensures c.InternalFault? <==> !value.IntV? && !(value.RefV? && value.target.kind == Field)
    ensures c.Reported? ==> |c.errors| <= 2
    ensures c.Reported? ==>
      (ResetSelfReference in c.errors <==> value.RefV? && value.target.path == node.path)
    ensures c.Reported? ==> forall i: int, w: nat :: ResetTooWide(i, w) in c.errors <==>
      value == IntV(i) && w == node.width && i >= Pow2(node.width)
    ensures c.Reported? ==> forall w: nat, o: nat :: ResetWidthMismatch(w, o) in c.errors <==>
      value.RefV? && w == node.width && o == value.target.width && w != o
    ensures c.Reported? && value.RefV? && node.width != value.target.width && value.target.path == node.path ==>
      c.errors == [ResetWidthMismatch(node.width, value.target.width), ResetSelfReference]
    ensures c.Reported? ==> NotExternal !in c.errors && NextSelfReference !in c.errors
    ensures c.Reported? ==> forall i, j :: 0 <= i < j < |c.errors| ==> c.errors[i] != c.errors[j]
  {
    if value.IntV? then
      Reported(if value.i >= Pow2(node.width) then [ResetTooWide(value.i, node.width)] else [])
    else if value.RefV? && value.target.kind == Field then
      var widthErrors := if node.width != value.target.width
        then [ResetWidthMismatch(node.width, value.target.width)] else [];
      var selfErrors := if node.path == value.target.path then [ResetSelfReference] else [];
      Reported(widthErrors + selfErrors)
    else InternalFault
  }

  /** `validate(node, value)` of the rule's class: the base class checks
      nothing; the three validating classes override it. */
  function Validate(rule: Rule, node: Node, value: Value): (c: Checked)
    ensures c.InternalFault? ==> rule.variant.NextCheck? || rule.variant.ResetCheck?
    ensures !(rule.variant.ErrExtBusCheck? || rule.variant.NextCheck? || rule.variant.ResetCheck?) ==>
      c == Reported([])
    ensures c.Reported? ==> |c.errors| <= 2
    ensures c.Reported? && NotExternal in c.errors ==> rule.variant.ErrExtBusCheck?
    ensures c.Reported? && NextSelfReference in c.errors ==> rule.variant.NextCheck?
    ensures c.Reported? && ResetSelfReference in c.errors ==> rule.variant.ResetCheck?
    ensures rule.variant.ErrExtBusCheck? ==> c == Reported(ErrExtBusErrors(node, value))
    ensures rule.variant.NextCheck? ==> c == NextChecked(node, value)
    ensures rule.variant.ResetCheck? ==> c == ResetChecked(node, value)
  {
    match rule.variant
    case ErrExtBusCheck => Reported(ErrExtBusErrors(node, value))
    case NextCheck => NextChecked(node, value)
    case ResetCheck => ResetChecked(node, value)
    case _ => Reported([])
  }
}
