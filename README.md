# SystemRDL property rules

This project models the property rule engine of the SystemRDL compiler, found in `systemrdl/core/properties.py`. Each SystemRDL property (`name`, `sw`, `reset`, `sync`, ...) is a rule class with these static attributes:

- the component classes it binds to;
- its valid types;
- a default;
- whether dynamic assignment is allowed;
- a mutex group.

Each rule class also has three operations:

- `assign_value` checks the binding and the type, then stores the value with its side effects;
- `get_default` gives the value when the property was never assigned;
- `validate` runs checks on the elaborated instance.

The rule book discovers every `Prop_` class and indexes it by property name. It answers `lookup_property` with the built-in rule of that name first and the user-defined rule after it.

The modules follow those concepts:

- `Kinds`: component kinds, type tags, property values, instance nodes, and the expression evaluator. The evaluator is an outside collaborator passed in as `predict_type` and `is_castable`. This module also models Python's `not` and `== True` on values.
- `Rules`: the rule record, the `Variant` saying which operations a class overrides, and `get_name` as Python's replace-all of `"Prop_"`.
- `Catalog`: one constant per rule class of the file, with its attributes as declared. The list `Classes` holds the classes in discovery order: direct subclasses of the base class first, then the subclasses of the paired-boolean base.
- `Defaults`: `get_default` for each variant.
- `Validation`: the `errextbus`, `next` and `reset` validators.
- `Assignment`: `assign_value`. It is a method on a component definition (`CompDef`) whose `properties` map it updates, proved against the functions `Verdict` and `Written`. The module also proves the side effects of paired and alias rules, and that sync/async and msb0/lsb0 stay mutually exclusive under every built-in assignment.
- `Registry`: the rule book (`RuleBook`), its constructor loop and `lookup_property`.
- `Scenarios`: concrete cases on the catalog's own rules.

Two behaviours of the code are worth stating plainly:

- An incompatible type is fatal (`msg.fatal`, line 91). It stops the assignment; it is not a recoverable error.
- The `accesswidth` default is `get_property('regwidth')` (line 923). The docstring quotes requirement 10.6.1.d of the SystemRDL standard: the default is the register's width. The code reads that width as the explicit `regwidth` when one is set, else regwidth's static default of 32. It does not derive it from any other width of the register.

## Model

| member | source | states |
|---|---|---|
| Kinds.PyNot | systemrdl/core/properties.py:138-139 | `not v` is true exactly when `v` is None, False, 0 or the empty string, and negates a bool |
| Rules.ReplaceAll | systemrdl/core/properties.py:47-49 | replacing with the empty string never makes a name longer |
| Rules.ReplaceAbsent | systemrdl/core/properties.py:47-49 | a name without the pattern's first character is returned unchanged by replace |
| Rules.StripsPrefix | systemrdl/core/properties.py:47-49 | `("Prop_" + x).replace("Prop_", "")` is `x` when `x` contains no `P` |
| Rules.NameOfPropClass | systemrdl/core/properties.py:19 | a class named `Prop_x` passes the `startswith("Prop_")` test and its property name is `x` |
| Catalog.PairsAreMutual | systemrdl/core/properties.py:280-304 | sync/async and msb0/lsb0 name each other as opposites, under distinct names |
| Catalog.OnlyPairsTouchPairKeys | systemrdl/core/properties.py:119-131 | no registered rule except the four paired booleans writes or deletes sync, async, msb0 or lsb0 |
| Catalog.RegwidthName | systemrdl/core/properties.py:897-905 | regwidth is registered as `regwidth` with static default 32 |
| Defaults.Default | systemrdl/core/properties.py:100-141 | the base default is the static default; a paired boolean defaults to `not` of its opposite when the opposite is assigned, else to its static default; the default of each overriding variant is stated too |
| Defaults.NameReadsInstanceName | systemrdl/core/properties.py:161-166 | an unassigned name reads as the instance name |
| Defaults.SignalwidthReadsInstanceWidth | systemrdl/core/properties.py:274-278 | an unassigned signalwidth reads as the signal's width |
| Defaults.FieldwidthReadsInstanceWidth | systemrdl/core/properties.py:634-638 | an unassigned fieldwidth reads as the field's width |
| Validation.Validate | systemrdl/core/properties.py:112-116 | the base class reports nothing; errextbus, next and reset give exactly their validator's result, and only those three can fault or report errors |
| Validation.ErrExtBusErrors | systemrdl/core/properties.py:222-229 | errextbus reports exactly when the instance is not external and the value equals True, and reports nothing else |
| Validation.NextChecked | systemrdl/core/properties.py:396-403 | next reports a self-reference exactly when it names the node's own path; a value that is not a node is an internal fault |
| Validation.ResetChecked | systemrdl/core/properties.py:416-443 | an integer reset reports exactly when it is at least 2^width; a field reset reports a width mismatch and a self-reference independently, in that order; each error appears at most once; anything else is an internal fault |
| Assignment.FindCastable | systemrdl/core/properties.py:87-94 | the loop finds a valid type exactly when the value's type is castable to some entry |
| Assignment.Verdict | systemrdl/core/properties.py:62-95 | not bindable is fatal; an unclassifiable value faults; a classified type is assigned exactly when castable to a valid type, else fatal |
| Assignment.Written | systemrdl/core/properties.py:96-131 | the value is stored under the rule's name, a paired rule leaves its opposite absent, an alias rule also stores under its canonical name, and keys outside the rule's side effects are unchanged |
| Assignment.CompDef.AssignValue | systemrdl/core/properties.py:52-97 | the outcome is the verdict, and the properties become the written map on success and stay unchanged otherwise |
| Assignment.PairExclusionPreserved | systemrdl/core/properties.py:124-131 | a rule touching neither of two keys, or a paired rule of the two, never leaves both set |
| Assignment.PairedDefaultsAgree | systemrdl/core/properties.py:124-141 | after one of a mutual pair assigns `b`, it reads `b` and its opposite reads `not b` |
| Assignment.PairAssignLeavesOne | systemrdl/core/properties.py:1018-1034 | assigning sync, async, msb0 or lsb0 sets that name and clears its opposite |
| Assignment.AliasAssignWritesBoth | systemrdl/core/properties.py:682-742 | threshold and saturate write their own name and the incr- name and nothing else; incrthreshold and incrsaturate write only their name |
| Assignment.AccessWidthFollowsRegwidth | systemrdl/core/properties.py:907-923 | once regwidth is assigned, accesswidth defaults to that value; while unassigned, to 32 |
| Assignment.PairAssignKeepsPairsExclusive | systemrdl/core/properties.py:280-304 | assigning a paired rule keeps both pairs mutually exclusive |
| Assignment.CatalogAssignKeepsPairsExclusive | systemrdl/core/properties.py:119-131 | assigning any registered built-in rule keeps sync/async and msb0/lsb0 from both being set |
| Registry.Registered | systemrdl/core/properties.py:7-20 | exactly the names of the `Prop_` classes are keys; each maps to a class of that name that no later class of the same name follows, so the last one wins |
| Registry.RuleBook.constructor | systemrdl/core/properties.py:12-22 | the discovery loop builds the registered dictionary and the user dictionary starts empty |
| Registry.RuleBook.LookupProperty | systemrdl/core/properties.py:24-30 | a built-in rule wins, then a user rule; nothing is found iff the name is in neither |
| Registry.RegisteredFromSuffix | systemrdl/core/properties.py:17-20 | a class discovered later in the list is still registered from the whole list |
| Registry.CatalogRegistersPairs | systemrdl/core/properties.py:280-304 | the rule book built from the catalog registers sync, async, msb0 and lsb0 |
| Scenarios.ResetExceedsWidth | systemrdl/core/properties.py:418-424 | a 4-bit field with reset 20 reports that 20 does not fit; 15 fits |
| Scenarios.SelfReferences | systemrdl/core/properties.py:436-442 | next or reset naming the field itself reports a self-reference; another same-width field is fine |
| Scenarios.ErrExtBusNeedsExternal | systemrdl/core/properties.py:222-229 | errextbus true reports on a non-external instance only |
| Scenarios.ContextDefaults | systemrdl/core/properties.py:274-278 | signalwidth defaults to 8 on an 8-bit signal; accesswidth is 16 when regwidth is 16 |
| Scenarios.AsyncOverridesSync | systemrdl/core/properties.py:293-304 | assigning async after sync removes sync, which then reads as false |

## Left out

- The expression evaluator is a parameter (`Evaluator`): `predict_type` and `is_castable` belong to the expressions module, which is not part of this model.
- Messages: the text of `msg.fatal` and `msg.error` and the error contexts are not modelled. A fatal message is the outcome `Fatal`, and an error is a `Diagnostic`.
- Class discovery by reflection (`get_all_subclasses`) is replaced by the explicit list `Catalog.Classes` in the same order. The `compiler` back-reference stored in each rule and in the rule book is left out.
- `mutex_group` and `dyn_assign_allowed` are carried as data. No operation of this file reads them.
- `user_properties` is only read by `lookup_property`. Nothing in this file adds a user property, so the model offers no operation for it.
- `node.get_property` belongs to the node module. It is modelled only as `Defaults.Query` (the explicit value, else the default), as far as `accesswidth` needs it.
- Evaluation of stored expressions is not modelled. A paired default takes Python's `not` of the stored object as it is, and an unevaluated expression object is truthy.
- The contents of the enumerated-type catalogs (`AccessType`, `OnReadType`, ...) are opaque strings and tags.
- Rules.ReplaceAll: its contract states only the length bound. Its exact results are stated by `ReplaceAbsent` and `StripsPrefix` for the names that occur.
- Catalog.OnlyPairsTouchPairKeys: the model does not prove that all catalog names are pairwise distinct. It proves only the facts about the paired-boolean keys.

