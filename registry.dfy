/** The rule book: the built-in rules indexed by property name, and the
    user-defined rules consulted after them. */
module Registry {
  import opened Kinds
  import opened Rules
  import Catalog

  /** The dictionary the rule book's constructor builds from a list of rule
      classes: every class whose name starts with "Prop_" under its property
      name, a later class replacing an earlier one of the same name. */
  function Registered(classes: seq<Rule>): (m: map<string, Rule>)
    ensures forall k :: k in m <==> exists i :: 0 <= i < |classes| && IsPropClass(classes[i]) && Name(classes[i]) == k
    ensures forall k :: k in m ==> m[k] in classes && IsPropClass(m[k]) && Name(m[k]) == k
    ensures |classes| > 0 && IsPropClass(classes[|classes| - 1]) ==>
      m[Name(classes[|classes| - 1])] == classes[|classes| - 1]
    ensures LastWins(classes, m)
  {
    if classes == [] then map[]
    else
      var prefix := classes[..|classes| - 1];
      var last := classes[|classes| - 1];
      var m' := Registered(prefix);
      assert forall i :: 0 <= i < |prefix| ==> prefix[i] == classes[i];
      var m := if IsPropClass(last) then m'[Name(last) := last] else m';
      assert prefix + [last] == classes;
      LastWinsExtends(prefix, last, m', m);
      m
  }

  /** Each key maps to some class of the list that no later class of the
      same name follows. */
  predicate LastWins(classes: seq<Rule>, m: map<string, Rule>)
  {
    forall k :: k in m ==> exists j :: 0 <= j < |classes| && m[k] == classes[j] && LastNamed(classes, j, k)
  }

  /** Registering one more class keeps every key mapped to its last class. */
  lemma {:induction false} LastWinsExtends(prefix: seq<Rule>, last: Rule, m': map<string, Rule>, m: map<string, Rule>)
    requires LastWins(prefix, m')
    requires m == if IsPropClass(last) then m'[Name(last) := last] else m'
    ensures LastWins(prefix + [last], m)
  {
    var classes := prefix + [last];
    forall k | k in m
      ensures exists j :: 0 <= j < |classes| && m[k] == classes[j] && LastNamed(classes, j, k)
    {
      if IsPropClass(last) && k == Name(last) {
        assert classes[|classes| - 1] == last;
        assert LastNamed(classes, |classes| - 1, k);
      } else {
        var j :| 0 <= j < |prefix| && m'[k] == prefix[j] && LastNamed(prefix, j, k);
        assert classes[j] == prefix[j];
        assert LastNamed(classes, j, k);
      }
    }
  }

  /** No class after position `j` is a "Prop_" class named `k`. */
  predicate LastNamed(classes: seq<Rule>, j: int, k: string)
  {
    forall j' :: 0 <= j' < |classes| && j < j' ==> !(IsPropClass(classes[j']) && Name(classes[j']) == k)
  }

  class RuleBook {
    var rdlProperties: map<string, Rule>
    var userProperties: map<string, Rule>

    /** Registers the rule classes, in the order given; a compiler session
        passes `Catalog.Classes`, the built-in classes in discovery order. */
    constructor (classes: seq<Rule>)
      ensures rdlProperties == Registered(classes)
      ensures userProperties == map[]
    {
      var found: map<string, Rule> := map[];
      var i := 0;
      while i < |classes|
        invariant 0 <= i <= |classes|
        invariant found == Registered(classes[..i])
      {
        var prop := classes[i];
        var propName := Name(prop);
        if IsPropClass(prop) {
          found := found[propName := prop];
        }
        assert classes[..i + 1][..i] == classes[..i];
        i := i + 1;
      }
      assert classes[..i] == classes;
      rdlProperties := found;
      userProperties := map[];
    }

    /** `lookup_property(prop_name)`: the built-in rule of that name, else the
        user rule of that name, else nothing. */
    function LookupProperty(propName: string): (r: Option<Rule>)
      reads this
      ensures propName in rdlProperties ==> r == Some(rdlProperties[propName])
      ensures propName !in rdlProperties && propName in userProperties ==> r == Some(userProperties[propName])
      ensures r.None? <==> propName !in rdlProperties && propName !in userProperties
    {
      if propName in rdlProperties then Some(rdlProperties[propName])
      else if propName in userProperties then Some(userProperties[propName])
      else None
    }
  }

  /** A class registered from a later part of the list is registered from
      the whole list. */
  lemma {:induction false} RegisteredFromSuffix(a: seq<Rule>, b: seq<Rule>, k: string)
    requires k in Registered(b)
    ensures k in Registered(a + b)
  {
    var i :| 0 <= i < |b| && IsPropClass(b[i]) && Name(b[i]) == k;
    assert (a + b)[|a| + i] == b[i];
  }

  /** The four paired-boolean rules are registered under their names. */
  lemma {:induction false} CatalogRegistersPairs()
    ensures forall k :: k in ["sync", "async", "msb0", "lsb0"] ==> k in Registered(Catalog.Classes)
  {
    var p := Catalog.BoolPairSubclasses;
    Catalog.SyncName(); Catalog.AsyncName(); Catalog.Msb0Name(); Catalog.Lsb0Name();
    assert p[0] == Catalog.SyncRule && p[1] == Catalog.AsyncRule;
    assert p[2] == Catalog.Msb0Rule && p[3] == Catalog.Lsb0Rule;
    forall k | k in ["sync", "async", "msb0", "lsb0"]
      ensures k in Registered(Catalog.Classes)
    {
      var i := if k == "sync" then 0 else if k == "async" then 1 else if k == "msb0" then 2 else 3;
      assert IsPropClass(p[i]) && Name(p[i]) == k;
      RegisteredFromSuffix(Catalog.DirectSubclasses, p, k);
    }
  }
}
