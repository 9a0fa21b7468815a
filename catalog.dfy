/** The rule classes of systemrdl/core/properties.py, one constant per
    class with its class attributes as declared (the line numbers refer to
    that file), grouped by the sections of the file, and the list the rule
    book discovers them in. */
module Catalog {
  import opened Kinds
  import opened Rules

  // The helper base class of the paired booleans: not a "Prop_" class.
  // lines 119-141
  const BoolPairBase := Rule("PropertyRuleBoolPair", {}, [], NoneV, true, None, BoolPair(""))

  // General properties

  // lines 150-166
  const NameRule := Rule(Prefix + "name", {Addrmap, Field, Mem, Reg, Regfile, Signal}, [StrT], StrV(""), true, None, NameDefault)

  // lines 169-178
  const DescRule := Rule(Prefix + "desc", {Addrmap, Field, Mem, Reg, Regfile, Signal}, [StrT], NoneV, true, None, Plain)

  // lines 180-190
  const DontcompareRule := Rule(Prefix + "dontcompare", {Addrmap, Reg, Regfile, Field}, [BoolT, IntT], BoolV(false), true, Some("O"), Plain)

  // lines 192-201
  const DonttestRule := Rule(Prefix + "donttest", {Addrmap, Reg, Regfile, Field}, [BoolT, IntT], BoolV(false), true, Some("O"), Plain)

  // lines 203-213
  const IspresentRule := Rule(Prefix + "ispresent", {Addrmap, Field, Mem, Reg, Regfile, Signal}, [BoolT], BoolV(true), true, None, Plain)

  // lines 215-229
  const ErrextbusRule := Rule(Prefix + "errextbus", {Addrmap, Reg, Regfile}, [BoolT], BoolV(false), false, None, ErrExtBusCheck)

  // lines 231-236
  const HdlPathRule := Rule(Prefix + "hdl_path", {Addrmap, Reg, Regfile}, [StrT], NoneV, true, None, Plain)

  // lines 238-243
  const HdlPathGateRule := Rule(Prefix + "hdl_path_gate", {Addrmap, Reg, Regfile}, [StrT], NoneV, true, None, Plain)

  // lines 245-250
  const HdlPathGateSliceRule := Rule(Prefix + "hdl_path_gate_slice", {Addrmap, Reg, Regfile}, [ArrayT(StrT)], NoneV, true, None, Plain)

  // lines 252-257
  const HdlPathSliceRule := Rule(Prefix + "hdl_path_slice", {Addrmap, Reg, Regfile}, [ArrayT(StrT)], NoneV, true, None, Plain)

  // Signal properties

  // lines 263-278
  const SignalwidthRule := Rule(Prefix + "signalwidth", {Signal}, [IntT], NoneV, false, None, WidthDefault)

  // lines 280-291
  const SyncRule := Rule(Prefix + "sync", {Signal}, [BoolT], BoolV(true), true, Some("N"), BoolPair("async"))

  // lines 293-304
  const AsyncRule := Rule(Prefix + "async", {Signal}, [BoolT], BoolV(false), true, Some("N"), BoolPair("sync"))

  // lines 306-317
  const CpuifResetRule := Rule(Prefix + "cpuif_reset", {Signal}, [BoolT], BoolV(false), true, None, Plain)

  // lines 319-329
  const FieldResetRule := Rule(Prefix + "field_reset", {Signal}, [BoolT], BoolV(false), true, None, Plain)

  // lines 331-340
  const ActivelowRule := Rule(Prefix + "activelow", {Signal}, [BoolT], BoolV(false), true, Some("A"), Plain)

  // lines 342-351
  const ActivehighRule := Rule(Prefix + "activehigh", {Signal}, [BoolT], BoolV(false), true, Some("A"), Plain)

  // Field access properties

  // lines 360-369
  const HwRule := Rule(Prefix + "hw", {Field}, [AccessT], AccessV("rw"), false, None, Plain)

  // lines 371-380
  const SwRule := Rule(Prefix + "sw", {Field, Mem}, [AccessT], AccessV("rw"), true, None, Plain)

  // Hardware signal properties

  // lines 385-403
  const NextRule := Rule(Prefix + "next", {Field}, [CompT(Field)], NoneV, true, None, NextCheck)

  // lines 405-443
  const ResetRule := Rule(Prefix + "reset", {Field}, [IntT, CompT(Field)], NoneV, true, None, ResetCheck)

  // lines 445-454
  const ResetsignalRule := Rule(Prefix + "resetsignal", {Field}, [CompT(Signal)], NoneV, true, None, Plain)

  // Software access properties

  // lines 460-469
  const RclrRule := Rule(Prefix + "rclr", {Field}, [BoolT], BoolV(false), true, Some("P"), Plain)

  // lines 471-480
  const RsetRule := Rule(Prefix + "rset", {Field}, [BoolT], BoolV(false), true, Some("P"), Plain)

  // lines 482-491
  const OnreadRule := Rule(Prefix + "onread", {Field}, [OnReadT], NoneV, true, Some("P"), Plain)

  // lines 494-503
  const WosetRule := Rule(Prefix + "woset", {Field}, [BoolT], BoolV(false), true, Some("B"), Plain)

  // lines 505-514
  const WoclrRule := Rule(Prefix + "woclr", {Field}, [BoolT], BoolV(false), true, Some("B"), Plain)

  // lines 516-524
  const OnwriteRule := Rule(Prefix + "onwrite", {Field}, [OnWriteT], NoneV, true, Some("B"), Plain)

  // lines 527-535
  const SwweRule := Rule(Prefix + "swwe", {Field}, [BoolT], BoolV(false), true, Some("R"), Plain)

  // lines 537-545
  const SwwelRule := Rule(Prefix + "swwel", {Field}, [BoolT], BoolV(false), true, Some("R"), Plain)

  // lines 548-558
  const SwmodRule := Rule(Prefix + "swmod", {Field}, [BoolT], BoolV(false), true, None, Plain)

  // lines 560-570
  const SwaccRule := Rule(Prefix + "swacc", {Field}, [BoolT], BoolV(false), true, None, Plain)

  // lines 572-584
  const SinglepulseRule := Rule(Prefix + "singlepulse", {Field}, [BoolT], BoolV(false), true, None, Plain)

  // Hardware access properties

  // lines 590-595
  const WeRule := Rule(Prefix + "we", {Field}, [BoolT], BoolV(false), true, Some("C"), Plain)

  // lines 597-602
  const WelRule := Rule(Prefix + "wel", {Field}, [BoolT], BoolV(false), true, Some("C"), Plain)

  // lines 605-610
  const AndedRule := Rule(Prefix + "anded", {Field}, [BoolT], BoolV(false), true, None, Plain)

  // lines 612-617
  const OredRule := Rule(Prefix + "ored", {Field}, [BoolT], BoolV(false), true, None, Plain)

  // lines 619-624
  const XoredRule := Rule(Prefix + "xored", {Field}, [BoolT], BoolV(false), true, None, Plain)

  // lines 627-638
  const FieldwidthRule := Rule(Prefix + "fieldwidth", {Field}, [IntT], NoneV, false, None, WidthDefault)

  // lines 641-646
  const HwclrRule := Rule(Prefix + "hwclr", {Field}, [BoolT], BoolV(false), true, None, Plain)

  // lines 648-653
  const HwsetRule := Rule(Prefix + "hwset", {Field}, [BoolT], BoolV(false), true, None, Plain)

  // lines 656-661
  const HwenableRule := Rule(Prefix + "hwenable", {Field}, [CompT(Field)], NoneV, true, Some("D"), Plain)

  // lines 663-668
  const HwmaskRule := Rule(Prefix + "hwmask", {Field}, [CompT(Field)], NoneV, true, Some("D"), Plain)

  // Counter field properties

  // lines 675-680
  const CounterRule := Rule(Prefix + "counter", {Field}, [BoolT], BoolV(false), true, Some("E"), Plain)

  // lines 682-697
  const ThresholdRule := Rule(Prefix + "threshold", {Field}, [BoolT, IntT, CompT(Signal)], BoolV(false), true, Some("incrthreshold alias"), Alias("incrthreshold"))

  // lines 699-714
  const SaturateRule := Rule(Prefix + "saturate", {Field}, [BoolT, IntT, CompT(Signal)], BoolV(false), true, Some("incrsaturate alias"), Alias("incrsaturate"))

  // lines 716-728
  const IncrthresholdRule := Rule(Prefix + "incrthreshold", {Field}, [BoolT, IntT, CompT(Signal)], BoolV(false), true, Some("incrthreshold alias"), Alias("incrthreshold"))

  // lines 730-742
  const IncrsaturateRule := Rule(Prefix + "incrsaturate", {Field}, [BoolT, IntT, CompT(Signal)], BoolV(false), true, Some("incrsaturate alias"), Alias("incrsaturate"))

  // lines 744-749
  const OverflowRule := Rule(Prefix + "overflow", {Field}, [BoolT], BoolV(false), true, None, Plain)

  // lines 751-756
  const UnderflowRule := Rule(Prefix + "underflow", {Field}, [BoolT], BoolV(false), true, None, Plain)

  // lines 758-763
  const IncrRule := Rule(Prefix + "incr", {Field}, [CompT(Signal)], NoneV, true, None, Plain)

  // lines 765-770
  const IncrvalueRule := Rule(Prefix + "incrvalue", {Field}, [IntT, CompT(Signal)], NoneV, true, Some("F"), Plain)

  // lines 772-777
  const IncrwidthRule := Rule(Prefix + "incrwidth", {Field}, [IntT], NoneV, true, Some("F"), Plain)

  // lines 779-784
  const DecrvalueRule := Rule(Prefix + "decrvalue", {Field}, [IntT, CompT(Signal)], NoneV, true, Some("G"), Plain)

  // lines 786-791
  const DecrRule := Rule(Prefix + "decr", {Field}, [CompT(Signal)], NoneV, true, None, Plain)

  // lines 793-798
  const DecrwidthRule := Rule(Prefix + "decrwidth", {Field}, [IntT], NoneV, true, Some("G"), Plain)

  // lines 800-805
  const DecrsaturateRule := Rule(Prefix + "decrsaturate", {Field}, [BoolT, IntT, CompT(Signal)], BoolV(false), true, None, Plain)

  // lines 807-812
  const DecrthresholdRule := Rule(Prefix + "decrthreshold", {Field}, [BoolT, IntT, CompT(Signal)], BoolV(false), true, None, Plain)

  // Field access interrupt properties

  // lines 820-825
  const IntrRule := Rule(Prefix + "intr", {Field}, [BoolT], BoolV(false), true, Some("E"), Plain)

  // lines 827-832
  const EnableRule := Rule(Prefix + "enable", {Field}, [CompT(Field)], NoneV, true, Some("J"), Plain)

  // lines 834-839
  const MaskRule := Rule(Prefix + "mask", {Field}, [CompT(Field)], NoneV, true, Some("J"), Plain)

  // lines 841-846
  const HaltenableRule := Rule(Prefix + "haltenable", {Field}, [CompT(Field)], NoneV, true, Some("K"), Plain)

  // lines 848-853
  const HaltmaskRule := Rule(Prefix + "haltmask", {Field}, [CompT(Field)], NoneV, true, Some("K"), Plain)

  // lines 855-860
  const StickyRule := Rule(Prefix + "sticky", {Field}, [BoolT], BoolV(false), true, Some("I"), Plain)

  // lines 862-867
  const StickybitRule := Rule(Prefix + "stickybit", {Field}, [BoolT], BoolV(false), true, Some("I"), Plain)

  // Miscellaneous field properties

  // lines 872-877
  const EncodeRule := Rule(Prefix + "encode", {Field}, [UserEnumT], NoneV, true, None, Plain)

  // lines 879-884
  const PrecedenceRule := Rule(Prefix + "precedence", {Field}, [PrecedenceT], PrecedenceV("sw"), true, None, Plain)

  // lines 886-891
  const ParitycheckRule := Rule(Prefix + "paritycheck", {Field}, [BoolT], BoolV(false), false, None, Plain)

  // Register properties

  // lines 897-905
  const RegwidthRule := Rule(Prefix + "regwidth", {Reg}, [IntT], IntV(32), false, None, Plain)

  // lines 907-923
  const AccesswidthRule := Rule(Prefix + "accesswidth", {Reg}, [IntT], NoneV, true, None, AccessWidthDefault)

  // lines 925-930
  const SharedRule := Rule(Prefix + "shared", {Reg}, [BoolT], BoolV(false), false, None, Plain)

  // Memory properties

  // lines 936-941
  const MementriesRule := Rule(Prefix + "mementries", {Mem}, [IntT], IntV(1), false, None, Plain)

  // lines 943-948
  const MemwidthRule := Rule(Prefix + "memwidth", {Mem}, [IntT], IntV(32), false, None, Plain)

  // Register file properties

  // lines 954-959
  const AlignmentRule := Rule(Prefix + "alignment", {Addrmap, Regfile}, [IntT], NoneV, false, None, Plain)

  // lines 969-974
  const SharedextbusRule := Rule(Prefix + "sharedextbus", {Addrmap, Regfile}, [BoolT], BoolV(false), false, None, Plain)

  // Address map properties

  // lines 979-984
  const BigendianRule := Rule(Prefix + "bigendian", {Addrmap}, [BoolT], BoolV(false), true, Some("L"), Plain)

  // lines 986-991
  const LittleendianRule := Rule(Prefix + "littleendian", {Addrmap}, [BoolT], BoolV(false), true, Some("L"), Plain)

  // lines 993-998
  const AddressingRule := Rule(Prefix + "addressing", {Addrmap}, [AddressingT], AddressingV("regalign"), false, None, Plain)

  // lines 1000-1009
  const RsvdsetRule := Rule(Prefix + "rsvdset", {Addrmap}, [BoolT], BoolV(false), false, Some("Q"), Plain)

  // lines 1011-1016
  const RsvdsetXRule := Rule(Prefix + "rsvdsetX", {Addrmap}, [BoolT], BoolV(false), false, Some("Q"), Plain)

  // lines 1018-1025
  const Msb0Rule := Rule(Prefix + "msb0", {Addrmap}, [BoolT], BoolV(false), false, Some("M"), BoolPair("lsb0"))

  // lines 1027-1034
  const Lsb0Rule := Rule(Prefix + "lsb0", {Addrmap}, [BoolT], BoolV(true), false, Some("M"), BoolPair("msb0"))

  // lines 1037-1042
  const BridgeRule := Rule(Prefix + "bridge", {Addrmap}, [BoolT], BoolV(false), false, None, Plain)

  // The discovery order of `get_all_subclasses(PropertyRule)`: the direct
  // subclasses in declaration order, then the subclasses of
  // PropertyRuleBoolPair.

  const Classes: seq<Rule> := DirectSubclasses + BoolPairSubclasses

  const DirectSubclasses: seq<Rule> :=
    [BoolPairBase] + General + SignalProps + FieldAccess + HardwareSignal
    + SoftwareAccess + HardwareAccess + Counter + Interrupt + Misc
    + RegProps + MemProps + RegfileProps + AddrmapProps

  const BoolPairSubclasses: seq<Rule> := [SyncRule, AsyncRule, Msb0Rule, Lsb0Rule]

  const General: seq<Rule> := [
    NameRule, DescRule, DontcompareRule, DonttestRule,
    IspresentRule, ErrextbusRule, HdlPathRule, HdlPathGateRule,
    HdlPathGateSliceRule, HdlPathSliceRule
  ]

  const SignalProps: seq<Rule> := [
    SignalwidthRule, CpuifResetRule, FieldResetRule, ActivelowRule,
    ActivehighRule
  ]

  const FieldAccess: seq<Rule> := [
    HwRule, SwRule
  ]

  const HardwareSignal: seq<Rule> := [
    NextRule, ResetRule, ResetsignalRule
  ]

  const SoftwareAccess: seq<Rule> := [
    RclrRule, RsetRule, OnreadRule, WosetRule,
    WoclrRule, OnwriteRule, SwweRule, SwwelRule,
    SwmodRule, SwaccRule, SinglepulseRule
  ]

  const HardwareAccess: seq<Rule> := [
    WeRule, WelRule, AndedRule, OredRule,
    XoredRule, FieldwidthRule, HwclrRule, HwsetRule,
    HwenableRule, HwmaskRule
  ]

  const Counter: seq<Rule> := [
    CounterRule, ThresholdRule, SaturateRule, IncrthresholdRule,
    IncrsaturateRule, OverflowRule, UnderflowRule, IncrRule,
    IncrvalueRule, IncrwidthRule, DecrvalueRule, DecrRule,
    DecrwidthRule, DecrsaturateRule, DecrthresholdRule
  ]

  const Interrupt: seq<Rule> := [
    IntrRule, EnableRule, MaskRule, HaltenableRule,
    HaltmaskRule, StickyRule, StickybitRule
  ]

  const Misc: seq<Rule> := [
    EncodeRule, PrecedenceRule, ParitycheckRule
  ]

  const RegProps: seq<Rule> := [
    RegwidthRule, AccesswidthRule, SharedRule
  ]

  const MemProps: seq<Rule> := [
    MementriesRule, MemwidthRule
  ]

  const RegfileProps: seq<Rule> := [
    AlignmentRule, SharedextbusRule
  ]

  const AddrmapProps: seq<Rule> := [
    BigendianRule, LittleendianRule, AddressingRule, RsvdsetRule,
    RsvdsetXRule, BridgeRule
  ]

  /** The keys of the two paired-boolean relations. */
  const PairKeys: set<string> := {"sync", "async", "msb0", "lsb0"}

  // For each section of the catalog: every rule in it is registered, under
  // a name that is none of the paired-boolean keys, and no side effect of
  // it touches those keys. The Facts lemmas establish this rule by rule,
  // the Avoid lemmas lift it to the section's list.

  lemma {:induction false} GeneralFacts()
    ensures Avoids(NameRule, PairKeys) && Avoids(DescRule, PairKeys) && Avoids(DontcompareRule, PairKeys)
    ensures Avoids(DonttestRule, PairKeys) && Avoids(IspresentRule, PairKeys) && Avoids(ErrextbusRule, PairKeys)
    ensures Avoids(HdlPathRule, PairKeys) && Avoids(HdlPathGateRule, PairKeys) && Avoids(HdlPathGateSliceRule, PairKeys)
    ensures Avoids(HdlPathSliceRule, PairKeys)
    ensures IsPropClass(NameRule) && IsPropClass(DescRule) && IsPropClass(DontcompareRule) && IsPropClass(DonttestRule)
    ensures IsPropClass(IspresentRule) && IsPropClass(ErrextbusRule) && IsPropClass(HdlPathRule) && IsPropClass(HdlPathGateRule)
    ensures IsPropClass(HdlPathGateSliceRule) && IsPropClass(HdlPathSliceRule)
  {
    NameName();
    DescName();
    DontcompareName();
    DonttestName();
    IspresentName();
    ErrextbusName();
    HdlPathName();
    HdlPathGateName();
    HdlPathGateSliceName();
    HdlPathSliceName();
  }

  lemma {:induction false} GeneralAvoidPairKeys()
    ensures forall r | r in General :: IsPropClass(r) && Avoids(r, PairKeys)
  {
    GeneralFacts();
  }

  lemma {:induction false} SignalPropsFacts()
    ensures Avoids(SignalwidthRule, PairKeys) && Avoids(CpuifResetRule, PairKeys) && Avoids(FieldResetRule, PairKeys)
    ensures Avoids(ActivelowRule, PairKeys) && Avoids(ActivehighRule, PairKeys)
    ensures IsPropClass(SignalwidthRule) && IsPropClass(CpuifResetRule) && IsPropClass(FieldResetRule) && IsPropClass(ActivelowRule)
    ensures IsPropClass(ActivehighRule)
  {
    SignalwidthName();
    CpuifResetName();
    FieldResetName();
    ActivelowName();
    ActivehighName();
  }

  lemma {:induction false} SignalPropsAvoidPairKeys()
    ensures forall r | r in SignalProps :: IsPropClass(r) && Avoids(r, PairKeys)
  {
    SignalPropsFacts();
  }

  lemma {:induction false} FieldAccessFacts()
    ensures Avoids(HwRule, PairKeys) && Avoids(SwRule, PairKeys)
    ensures IsPropClass(HwRule) && IsPropClass(SwRule)
  {
    HwName();
    SwName();
  }

  lemma {:induction false} FieldAccessAvoidPairKeys()
    ensures forall r | r in FieldAccess :: IsPropClass(r) && Avoids(r, PairKeys)
  {
    FieldAccessFacts();
  }

  lemma {:induction false} HardwareSignalFacts()
    ensures Avoids(NextRule, PairKeys) && Avoids(ResetRule, PairKeys) && Avoids(ResetsignalRule, PairKeys)
    ensures IsPropClass(NextRule) && IsPropClass(ResetRule) && IsPropClass(ResetsignalRule)
  {
    NextName();
    ResetName();
    ResetsignalName();
  }

  lemma {:induction false} HardwareSignalAvoidPairKeys()
    ensures forall r | r in HardwareSignal :: IsPropClass(r) && Avoids(r, PairKeys)
  {
    HardwareSignalFacts();
  }

  lemma {:induction false} SoftwareAccessFacts()
    ensures Avoids(RclrRule, PairKeys) && Avoids(RsetRule, PairKeys) && Avoids(OnreadRule, PairKeys)
    ensures Avoids(WosetRule, PairKeys) && Avoids(WoclrRule, PairKeys) && Avoids(OnwriteRule, PairKeys)
    ensures Avoids(SwweRule, PairKeys) && Avoids(SwwelRule, PairKeys) && Avoids(SwmodRule, PairKeys)
    ensures Avoids(SwaccRule, PairKeys) && Avoids(SinglepulseRule, PairKeys)
    ensures IsPropClass(RclrRule) && IsPropClass(RsetRule) && IsPropClass(OnreadRule) && IsPropClass(WosetRule)
    ensures IsPropClass(WoclrRule) && IsPropClass(OnwriteRule) && IsPropClass(SwweRule) && IsPropClass(SwwelRule)
    ensures IsPropClass(SwmodRule) && IsPropClass(SwaccRule) && IsPropClass(SinglepulseRule)
  {
    RclrName();
    RsetName();
    OnreadName();
    WosetName();
    WoclrName();
    OnwriteName();
    SwweName();
    SwwelName();
    SwmodName();
    SwaccName();
    SinglepulseName();
  }

  lemma {:induction false} SoftwareAccessAvoidPairKeys()
    ensures forall r | r in SoftwareAccess :: IsPropClass(r) && Avoids(r, PairKeys)
  {
    SoftwareAccessFacts();
  }

  lemma {:induction false} HardwareAccessFacts()
    ensures Avoids(WeRule, PairKeys) && Avoids(WelRule, PairKeys) && Avoids(AndedRule, PairKeys)
    ensures Avoids(OredRule, PairKeys) && Avoids(XoredRule, PairKeys) && Avoids(FieldwidthRule, PairKeys)
    ensures Avoids(HwclrRule, PairKeys) && Avoids(HwsetRule, PairKeys) && Avoids(HwenableRule, PairKeys)
    ensures Avoids(HwmaskRule, PairKeys)
    ensures IsPropClass(WeRule) && IsPropClass(WelRule) && IsPropClass(AndedRule) && IsPropClass(OredRule)
    ensures IsPropClass(XoredRule) && IsPropClass(FieldwidthRule) && IsPropClass(HwclrRule) && IsPropClass(HwsetRule)
    ensures IsPropClass(HwenableRule) && IsPropClass(HwmaskRule)
  {
    WeName();
    WelName();
    AndedName();
    OredName();
    XoredName();
    FieldwidthName();
    HwclrName();
    HwsetName();
    HwenableName();
    HwmaskName();
  }

  lemma {:induction false} HardwareAccessAvoidPairKeys()
    ensures forall r | r in HardwareAccess :: IsPropClass(r) && Avoids(r, PairKeys)
  {
    HardwareAccessFacts();
  }

  lemma {:induction false} CounterFacts()
    ensures Avoids(CounterRule, PairKeys) && Avoids(ThresholdRule, PairKeys) && Avoids(SaturateRule, PairKeys)
    ensures Avoids(IncrthresholdRule, PairKeys) && Avoids(IncrsaturateRule, PairKeys) && Avoids(OverflowRule, PairKeys)
    ensures Avoids(UnderflowRule, PairKeys) && Avoids(IncrRule, PairKeys) && Avoids(IncrvalueRule, PairKeys)
    ensures Avoids(IncrwidthRule, PairKeys) && Avoids(DecrvalueRule, PairKeys) && Avoids(DecrRule, PairKeys)
    ensures Avoids(DecrwidthRule, PairKeys) && Avoids(DecrsaturateRule, PairKeys) && Avoids(DecrthresholdRule, PairKeys)
    ensures IsPropClass(CounterRule) && IsPropClass(ThresholdRule) && IsPropClass(SaturateRule) && IsPropClass(IncrthresholdRule)
    ensures IsPropClass(IncrsaturateRule) && IsPropClass(OverflowRule) && IsPropClass(UnderflowRule) && IsPropClass(IncrRule)
    ensures IsPropClass(IncrvalueRule) && IsPropClass(IncrwidthRule) && IsPropClass(DecrvalueRule) && IsPropClass(DecrRule)
    ensures IsPropClass(DecrwidthRule) && IsPropClass(DecrsaturateRule) && IsPropClass(DecrthresholdRule)
  {
    CounterName();
    ThresholdName();
    SaturateName();
    IncrthresholdName();
    IncrsaturateName();
    OverflowName();
    UnderflowName();
    IncrName();
    IncrvalueName();
    IncrwidthName();
    DecrvalueName();
    DecrName();
    DecrwidthName();
    DecrsaturateName();
    DecrthresholdName();
  }

  lemma {:induction false} CounterAvoidPairKeys()
    ensures forall r | r in Counter :: IsPropClass(r) && Avoids(r, PairKeys)
  {
    CounterFacts();
  }

  lemma {:induction false} InterruptFacts()
    ensures Avoids(IntrRule, PairKeys) && Avoids(EnableRule, PairKeys) && Avoids(MaskRule, PairKeys)
    ensures Avoids(HaltenableRule, PairKeys) && Avoids(HaltmaskRule, PairKeys) && Avoids(StickyRule, PairKeys)
    ensures Avoids(StickybitRule, PairKeys)
    ensures IsPropClass(IntrRule) && IsPropClass(EnableRule) && IsPropClass(MaskRule) && IsPropClass(HaltenableRule)
    ensures IsPropClass(HaltmaskRule) && IsPropClass(StickyRule) && IsPropClass(StickybitRule)
  {
    IntrName();
    EnableName();
    MaskName();
    HaltenableName();
    HaltmaskName();
    StickyName();
    StickybitName();
  }

  lemma {:induction false} InterruptAvoidPairKeys()
    ensures forall r | r in Interrupt :: IsPropClass(r) && Avoids(r, PairKeys)
  {
    InterruptFacts();
  }

  lemma {:induction false} MiscFacts()
    ensures Avoids(EncodeRule, PairKeys) && Avoids(PrecedenceRule, PairKeys) && Avoids(ParitycheckRule, PairKeys)
    ensures IsPropClass(EncodeRule) && IsPropClass(PrecedenceRule) && IsPropClass(ParitycheckRule)
  {
    EncodeName();
    PrecedenceName();
    ParitycheckName();
  }

  lemma {:induction false} MiscAvoidPairKeys()
    ensures forall r | r in Misc :: IsPropClass(r) && Avoids(r, PairKeys)
  {
    MiscFacts();
  }

  lemma {:induction false} RegPropsFacts()
    ensures Avoids(RegwidthRule, PairKeys) && Avoids(AccesswidthRule, PairKeys) && Avoids(SharedRule, PairKeys)
    ensures IsPropClass(RegwidthRule) && IsPropClass(AccesswidthRule) && IsPropClass(SharedRule)
  {
    RegwidthName();
    AccesswidthName();
    SharedName();
  }

  lemma {:induction false} RegPropsAvoidPairKeys()
    ensures forall r | r in RegProps :: IsPropClass(r) && Avoids(r, PairKeys)
  {
    RegPropsFacts();
  }

  lemma {:induction false} MemPropsFacts()
    ensures Avoids(MementriesRule, PairKeys) && Avoids(MemwidthRule, PairKeys)
    ensures IsPropClass(MementriesRule) && IsPropClass(MemwidthRule)
  {
    MementriesName();
    MemwidthName();
  }

  lemma {:induction false} MemPropsAvoidPairKeys()
    ensures forall r | r in MemProps :: IsPropClass(r) && Avoids(r, PairKeys)
  {
    MemPropsFacts();
  }

  lemma {:induction false} RegfilePropsFacts()
    ensures Avoids(AlignmentRule, PairKeys) && Avoids(SharedextbusRule, PairKeys)
    ensures IsPropClass(AlignmentRule) && IsPropClass(SharedextbusRule)
  {
    AlignmentName();
    SharedextbusName();
  }

  lemma {:induction false} RegfilePropsAvoidPairKeys()
    ensures forall r | r in RegfileProps :: IsPropClass(r) && Avoids(r, PairKeys)
  {
    RegfilePropsFacts();
  }

  lemma {:induction false} AddrmapPropsFacts()
    ensures Avoids(BigendianRule, PairKeys) && Avoids(LittleendianRule, PairKeys) && Avoids(AddressingRule, PairKeys)
    ensures Avoids(RsvdsetRule, PairKeys) && Avoids(RsvdsetXRule, PairKeys) && Avoids(BridgeRule, PairKeys)
    ensures IsPropClass(BigendianRule) && IsPropClass(LittleendianRule) && IsPropClass(AddressingRule) && IsPropClass(RsvdsetRule)
    ensures IsPropClass(RsvdsetXRule) && IsPropClass(BridgeRule)
  {
    BigendianName();
    LittleendianName();
    AddressingName();
    RsvdsetName();
    RsvdsetXName();
    BridgeName();
  }

  lemma {:induction false} AddrmapPropsAvoidPairKeys()
    ensures forall r | r in AddrmapProps :: IsPropClass(r) && Avoids(r, PairKeys)
  {
    AddrmapPropsFacts();
  }

  /** No registered rule except the four paired booleans writes or deletes
      sync, async, msb0 or lsb0, so only those four can change which of the
      pairs are present. */
  lemma {:induction false} OnlyPairsTouchPairKeys()
    ensures forall r | r in Classes && IsPropClass(r) && r !in BoolPairSubclasses :: Avoids(r, PairKeys)
  {
    GeneralAvoidPairKeys();
    SignalPropsAvoidPairKeys();
    FieldAccessAvoidPairKeys();
    HardwareSignalAvoidPairKeys();
    SoftwareAccessAvoidPairKeys();
    HardwareAccessAvoidPairKeys();
    CounterAvoidPairKeys();
    InterruptAvoidPairKeys();
    MiscAvoidPairKeys();
    RegPropsAvoidPairKeys();
    MemPropsAvoidPairKeys();
    RegfilePropsAvoidPairKeys();
    AddrmapPropsAvoidPairKeys();
    assert !IsPropClass(BoolPairBase) by {
      assert BoolPairBase.className[..|Prefix|][4] == 'e';
    }
  }

  // The property names of the rules, one lemma per rule: each class is a
  // "Prop_" class and is registered under the name `get_name` derives.
  lemma NameName() ensures IsPropClass(NameRule) && Name(NameRule) == "name" { NameOfPropClass(NameRule, "name"); }
  lemma DescName() ensures IsPropClass(DescRule) && Name(DescRule) == "desc" { NameOfPropClass(DescRule, "desc"); }
  lemma DontcompareName() ensures IsPropClass(DontcompareRule) && Name(DontcompareRule) == "dontcompare" { NameOfPropClass(DontcompareRule, "dontcompare"); }
  lemma DonttestName() ensures IsPropClass(DonttestRule) && Name(DonttestRule) == "donttest" { NameOfPropClass(DonttestRule, "donttest"); }
  lemma IspresentName() ensures IsPropClass(IspresentRule) && Name(IspresentRule) == "ispresent" { NameOfPropClass(IspresentRule, "ispresent"); }
  lemma ErrextbusName() ensures IsPropClass(ErrextbusRule) && Name(ErrextbusRule) == "errextbus" { NameOfPropClass(ErrextbusRule, "errextbus"); }
  lemma HdlPathName() ensures IsPropClass(HdlPathRule) && Name(HdlPathRule) == "hdl_path" { NameOfPropClass(HdlPathRule, "hdl_path"); }
  lemma HdlPathGateName() ensures IsPropClass(HdlPathGateRule) && Name(HdlPathGateRule) == "hdl_path_gate" { NameOfPropClass(HdlPathGateRule, "hdl_path_gate"); }
  lemma HdlPathGateSliceName() ensures IsPropClass(HdlPathGateSliceRule) && Name(HdlPathGateSliceRule) == "hdl_path_gate_slice" { NameOfPropClass(HdlPathGateSliceRule, "hdl_path_gate_slice"); }
  lemma HdlPathSliceName() ensures IsPropClass(HdlPathSliceRule) && Name(HdlPathSliceRule) == "hdl_path_slice" { NameOfPropClass(HdlPathSliceRule, "hdl_path_slice"); }
  lemma SignalwidthName() ensures IsPropClass(SignalwidthRule) && Name(SignalwidthRule) == "signalwidth" { NameOfPropClass(SignalwidthRule, "signalwidth"); }
  lemma CpuifResetName() ensures IsPropClass(CpuifResetRule) && Name(CpuifResetRule) == "cpuif_reset" { NameOfPropClass(CpuifResetRule, "cpuif_reset"); }
  lemma FieldResetName() ensures IsPropClass(FieldResetRule) && Name(FieldResetRule) == "field_reset" { NameOfPropClass(FieldResetRule, "field_reset"); }
  lemma ActivelowName() ensures IsPropClass(ActivelowRule) && Name(ActivelowRule) == "activelow" { NameOfPropClass(ActivelowRule, "activelow"); }
  lemma ActivehighName() ensures IsPropClass(ActivehighRule) && Name(ActivehighRule) == "activehigh" { NameOfPropClass(ActivehighRule, "activehigh"); }
  lemma HwName() ensures IsPropClass(HwRule) && Name(HwRule) == "hw" { NameOfPropClass(HwRule, "hw"); }
  lemma SwName() ensures IsPropClass(SwRule) && Name(SwRule) == "sw" { NameOfPropClass(SwRule, "sw"); }
  lemma NextName() ensures IsPropClass(NextRule) && Name(NextRule) == "next" { NameOfPropClass(NextRule, "next"); }
  lemma ResetName() ensures IsPropClass(ResetRule) && Name(ResetRule) == "reset" { NameOfPropClass(ResetRule, "reset"); }
  lemma ResetsignalName() ensures IsPropClass(ResetsignalRule) && Name(ResetsignalRule) == "resetsignal" { NameOfPropClass(ResetsignalRule, "resetsignal"); }
  lemma RclrName() ensures IsPropClass(RclrRule) && Name(RclrRule) == "rclr" { NameOfPropClass(RclrRule, "rclr"); }
  lemma RsetName() ensures IsPropClass(RsetRule) && Name(RsetRule) == "rset" { NameOfPropClass(RsetRule, "rset"); }
  lemma OnreadName() ensures IsPropClass(OnreadRule) && Name(OnreadRule) == "onread" { NameOfPropClass(OnreadRule, "onread"); }
  lemma WosetName() ensures IsPropClass(WosetRule) && Name(WosetRule) == "woset" { NameOfPropClass(WosetRule, "woset"); }
  lemma WoclrName() ensures IsPropClass(WoclrRule) && Name(WoclrRule) == "woclr" { NameOfPropClass(WoclrRule, "woclr"); }
  lemma OnwriteName() ensures IsPropClass(OnwriteRule) && Name(OnwriteRule) == "onwrite" { NameOfPropClass(OnwriteRule, "onwrite"); }
  lemma SwweName() ensures IsPropClass(SwweRule) && Name(SwweRule) == "swwe" { NameOfPropClass(SwweRule, "swwe"); }
  lemma SwwelName() ensures IsPropClass(SwwelRule) && Name(SwwelRule) == "swwel" { NameOfPropClass(SwwelRule, "swwel"); }
  lemma SwmodName() ensures IsPropClass(SwmodRule) && Name(SwmodRule) == "swmod" { NameOfPropClass(SwmodRule, "swmod"); }
  lemma SwaccName() ensures IsPropClass(SwaccRule) && Name(SwaccRule) == "swacc" { NameOfPropClass(SwaccRule, "swacc"); }
  lemma SinglepulseName() ensures IsPropClass(SinglepulseRule) && Name(SinglepulseRule) == "singlepulse" { NameOfPropClass(SinglepulseRule, "singlepulse"); }
  lemma WeName() ensures IsPropClass(WeRule) && Name(WeRule) == "we" { NameOfPropClass(WeRule, "we"); }
  lemma WelName() ensures IsPropClass(WelRule) && Name(WelRule) == "wel" { NameOfPropClass(WelRule, "wel"); }
  lemma AndedName() ensures IsPropClass(AndedRule) && Name(AndedRule) == "anded" { NameOfPropClass(AndedRule, "anded"); }
  lemma OredName() ensures IsPropClass(OredRule) && Name(OredRule) == "ored" { NameOfPropClass(OredRule, "ored"); }
  lemma XoredName() ensures IsPropClass(XoredRule) && Name(XoredRule) == "xored" { NameOfPropClass(XoredRule, "xored"); }
  lemma FieldwidthName() ensures IsPropClass(FieldwidthRule) && Name(FieldwidthRule) == "fieldwidth" { NameOfPropClass(FieldwidthRule, "fieldwidth"); }
  lemma HwclrName() ensures IsPropClass(HwclrRule) && Name(HwclrRule) == "hwclr" { NameOfPropClass(HwclrRule, "hwclr"); }
  lemma HwsetName() ensures IsPropClass(HwsetRule) && Name(HwsetRule) == "hwset" { NameOfPropClass(HwsetRule, "hwset"); }
  lemma HwenableName() ensures IsPropClass(HwenableRule) && Name(HwenableRule) == "hwenable" { NameOfPropClass(HwenableRule, "hwenable"); }
  lemma HwmaskName() ensures IsPropClass(HwmaskRule) && Name(HwmaskRule) == "hwmask" { NameOfPropClass(HwmaskRule, "hwmask"); }
  lemma CounterName() ensures IsPropClass(CounterRule) && Name(CounterRule) == "counter" { NameOfPropClass(CounterRule, "counter"); }
  lemma OverflowName() ensures IsPropClass(OverflowRule) && Name(OverflowRule) == "overflow" { NameOfPropClass(OverflowRule, "overflow"); }
  lemma UnderflowName() ensures IsPropClass(UnderflowRule) && Name(UnderflowRule) == "underflow" { NameOfPropClass(UnderflowRule, "underflow"); }
  lemma IncrName() ensures IsPropClass(IncrRule) && Name(IncrRule) == "incr" { NameOfPropClass(IncrRule, "incr"); }
  lemma IncrvalueName() ensures IsPropClass(IncrvalueRule) && Name(IncrvalueRule) == "incrvalue" { NameOfPropClass(IncrvalueRule, "incrvalue"); }
  lemma IncrwidthName() ensures IsPropClass(IncrwidthRule) && Name(IncrwidthRule) == "incrwidth" { NameOfPropClass(IncrwidthRule, "incrwidth"); }
  lemma DecrvalueName() ensures IsPropClass(DecrvalueRule) && Name(DecrvalueRule) == "decrvalue" { NameOfPropClass(DecrvalueRule, "decrvalue"); }
  lemma DecrName() ensures IsPropClass(DecrRule) && Name(DecrRule) == "decr" { NameOfPropClass(DecrRule, "decr"); }
  lemma DecrwidthName() ensures IsPropClass(DecrwidthRule) && Name(DecrwidthRule) == "decrwidth" { NameOfPropClass(DecrwidthRule, "decrwidth"); }
  lemma DecrsaturateName() ensures IsPropClass(DecrsaturateRule) && Name(DecrsaturateRule) == "decrsaturate" { NameOfPropClass(DecrsaturateRule, "decrsaturate"); }
  lemma DecrthresholdName() ensures IsPropClass(DecrthresholdRule) && Name(DecrthresholdRule) == "decrthreshold" { NameOfPropClass(DecrthresholdRule, "decrthreshold"); }
  lemma IntrName() ensures IsPropClass(IntrRule) && Name(IntrRule) == "intr" { NameOfPropClass(IntrRule, "intr"); }
  lemma EnableName() ensures IsPropClass(EnableRule) && Name(EnableRule) == "enable" { NameOfPropClass(EnableRule, "enable"); }
  lemma MaskName() ensures IsPropClass(MaskRule) && Name(MaskRule) == "mask" { NameOfPropClass(MaskRule, "mask"); }
  lemma HaltenableName() ensures IsPropClass(HaltenableRule) && Name(HaltenableRule) == "haltenable" { NameOfPropClass(HaltenableRule, "haltenable"); }
  lemma HaltmaskName() ensures IsPropClass(HaltmaskRule) && Name(HaltmaskRule) == "haltmask" { NameOfPropClass(HaltmaskRule, "haltmask"); }
  lemma StickyName() ensures IsPropClass(StickyRule) && Name(StickyRule) == "sticky" { NameOfPropClass(StickyRule, "sticky"); }
  lemma StickybitName() ensures IsPropClass(StickybitRule) && Name(StickybitRule) == "stickybit" { NameOfPropClass(StickybitRule, "stickybit"); }
  lemma EncodeName() ensures IsPropClass(EncodeRule) && Name(EncodeRule) == "encode" { NameOfPropClass(EncodeRule, "encode"); }
  lemma PrecedenceName() ensures IsPropClass(PrecedenceRule) && Name(PrecedenceRule) == "precedence" { NameOfPropClass(PrecedenceRule, "precedence"); }
  lemma ParitycheckName() ensures IsPropClass(ParitycheckRule) && Name(ParitycheckRule) == "paritycheck" { NameOfPropClass(ParitycheckRule, "paritycheck"); }
  lemma AccesswidthName() ensures IsPropClass(AccesswidthRule) && Name(AccesswidthRule) == "accesswidth" { NameOfPropClass(AccesswidthRule, "accesswidth"); }
  lemma SharedName() ensures IsPropClass(SharedRule) && Name(SharedRule) == "shared" { NameOfPropClass(SharedRule, "shared"); }
  lemma MementriesName() ensures IsPropClass(MementriesRule) && Name(MementriesRule) == "mementries" { NameOfPropClass(MementriesRule, "mementries"); }
  lemma MemwidthName() ensures IsPropClass(MemwidthRule) && Name(MemwidthRule) == "memwidth" { NameOfPropClass(MemwidthRule, "memwidth"); }
  lemma AlignmentName() ensures IsPropClass(AlignmentRule) && Name(AlignmentRule) == "alignment" { NameOfPropClass(AlignmentRule, "alignment"); }
  lemma SharedextbusName() ensures IsPropClass(SharedextbusRule) && Name(SharedextbusRule) == "sharedextbus" { NameOfPropClass(SharedextbusRule, "sharedextbus"); }
  lemma BigendianName() ensures IsPropClass(BigendianRule) && Name(BigendianRule) == "bigendian" { NameOfPropClass(BigendianRule, "bigendian"); }
  lemma LittleendianName() ensures IsPropClass(LittleendianRule) && Name(LittleendianRule) == "littleendian" { NameOfPropClass(LittleendianRule, "littleendian"); }
  lemma AddressingName() ensures IsPropClass(AddressingRule) && Name(AddressingRule) == "addressing" { NameOfPropClass(AddressingRule, "addressing"); }
  lemma RsvdsetName() ensures IsPropClass(RsvdsetRule) && Name(RsvdsetRule) == "rsvdset" { NameOfPropClass(RsvdsetRule, "rsvdset"); }
  lemma RsvdsetXName() ensures IsPropClass(RsvdsetXRule) && Name(RsvdsetXRule) == "rsvdsetX" { NameOfPropClass(RsvdsetXRule, "rsvdsetX"); }
  lemma BridgeName() ensures IsPropClass(BridgeRule) && Name(BridgeRule) == "bridge" { NameOfPropClass(BridgeRule, "bridge"); }

  lemma SyncName() ensures IsPropClass(SyncRule) && Name(SyncRule) == "sync" { NameOfPropClass(SyncRule, "sync"); }
  lemma AsyncName() ensures IsPropClass(AsyncRule) && Name(AsyncRule) == "async" { NameOfPropClass(AsyncRule, "async"); }
  lemma Msb0Name() ensures IsPropClass(Msb0Rule) && Name(Msb0Rule) == "msb0" { NameOfPropClass(Msb0Rule, "msb0"); }
  lemma Lsb0Name() ensures IsPropClass(Lsb0Rule) && Name(Lsb0Rule) == "lsb0" { NameOfPropClass(Lsb0Rule, "lsb0"); }
  lemma ThresholdName() ensures IsPropClass(ThresholdRule) && Name(ThresholdRule) == "threshold" { NameOfPropClass(ThresholdRule, "threshold"); }
  lemma SaturateName() ensures IsPropClass(SaturateRule) && Name(SaturateRule) == "saturate" { NameOfPropClass(SaturateRule, "saturate"); }
  lemma IncrthresholdName() ensures IsPropClass(IncrthresholdRule) && Name(IncrthresholdRule) == "incrthreshold" { NameOfPropClass(IncrthresholdRule, "incrthreshold"); }
  lemma IncrsaturateName() ensures IsPropClass(IncrsaturateRule) && Name(IncrsaturateRule) == "incrsaturate" { NameOfPropClass(IncrsaturateRule, "incrsaturate"); }
  /** regwidth is registered as `regwidth`, and its static default is 32. */
  lemma RegwidthName()
    ensures IsPropClass(RegwidthRule) && Name(RegwidthRule) == "regwidth"
    ensures RegwidthRule.defaultValue == IntV(32)
  {
    NameOfPropClass(RegwidthRule, "regwidth");
  }

  /** sync/async and msb0/lsb0 name each other as opposites. */
  lemma {:induction false} PairsAreMutual()
    ensures MutualPair(SyncRule, AsyncRule) && Name(SyncRule) == "sync" && Name(AsyncRule) == "async"
    ensures MutualPair(Msb0Rule, Lsb0Rule) && Name(Msb0Rule) == "msb0" && Name(Lsb0Rule) == "lsb0"
  {
    SyncName(); AsyncName(); Msb0Name(); Lsb0Name();
  }
}
