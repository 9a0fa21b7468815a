/** Component kinds, value type tags, property values and instance nodes:
    the vocabulary every property rule is written in. */
module Kinds {

  datatype Option<T> = None | Some(value: T)

  /** The component classes a rule may bind to (`comp.Signal`, `comp.Field`, ...). */
  datatype CompKind = Signal | Field | Reg | Regfile | Mem | Addrmap

  /** The entries of a rule's `valid_types` list, and what classification yields. */
  datatype TypeTag =
    | BoolT
    | IntT
    | StrT
    | ArrayT(elem: TypeTag)      // tp.Array(...)
    | AccessT                    // rdltypes.AccessType
    | OnReadT                    // rdltypes.OnReadType
    | OnWriteT                   // rdltypes.OnWriteType
    | AddressingT                // rdltypes.AddressingType
    | PrecedenceT                // rdltypes.PrecedenceType
    | UserEnumT                  // rdltypes.UserEnum
    | CompT(comp: CompKind)      // a reference to a component of that class

  /** An expression not yet evaluated; its contents belong to the expression evaluator. */
  datatype Expr = Expr(text: string)

  /** A reference to an elaborated instance node, as a reference-valued
      property holds it once the instance tree exists. */
  datatype NodeRef = NodeRef(kind: CompKind, path: string, width: nat)

  /** Everything a property may hold: the literals and expressions an
      assignment receives, the static defaults of the catalog, and the
      resolved values the validators inspect. */
  datatype Value =
    | NoneV
    | BoolV(b: bool)
    | IntV(i: int)
    | StrV(s: string)
    | AccessV(access: string)
    | AddressingV(addressing: string)
    | PrecedenceV(precedence: string)
    | UserEnumV(enumType: string, member: string)
    | ExprV(expr: Expr)
    | RefV(target: NodeRef)

  /** The expression evaluator, which lives outside the rule engine:
      `predict_type()` of an expression and the `is_castable` relation. */
  datatype Evaluator = Evaluator(predictType: Expr -> TypeTag, isCastable: (TypeTag, TypeTag) -> bool)

  /** An elaborated instance node as the rule engine reads it: its path, the
      `name` and `width` of the instance, its `external` flag and the
      explicit properties of the component it instantiates. */
  datatype Node = Node(path: string, name: string, width: nat, external: bool, props: map<string, Value>)

  /** The type an assigned value is checked under: a bool literal is a bool,
      a precedence literal a PrecedenceType, an expression whatever the
      evaluator predicts, a user enum a UserEnum; anything else has no type
      (the source raises RuntimeError). */
  function Classify(v: Value, ev: Evaluator): Option<TypeTag>
  {
    match v
    case BoolV(_) => Some(BoolT)
    case PrecedenceV(_) => Some(PrecedenceT)
    case ExprV(e) => Some(ev.predictType(e))
    case UserEnumV(_, _) => Some(UserEnumT)
    case _ => None
  }

  /** Python truthiness of a value: None, False, 0 and "" are false; every
      other object is true. */
  predicate Truthy(v: Value)
  {
    match v
    case NoneV => false
    case BoolV(b) => b
    case IntV(i) => i != 0
    case StrV(s) => s != ""
    case _ => true
  }

  /** Python's `not v`: true exactly for None, False, 0 and the empty string. */
  function PyNot(v: Value): (r: Value)
    ensures r == BoolV(v == NoneV || v == BoolV(false) || v == IntV(0) || v == StrV(""))
    ensures v.BoolV? ==> r == BoolV(!v.b)
  {
    BoolV(!Truthy(v))
  }

  /** Python's `v == True`, which also holds of the integer 1. */
  predicate EqualsTrue(v: Value)
  {
    v == BoolV(true) || v == IntV(1)
  }
}
