/** The metric descriptors the collector emits under, and a reference reading
    of the metric schema that recovers a metric's family, source field and
    value type from its name alone. */
module Descriptors {
  import opened Report

  /** How a value is exposed: a gauge replaces the previous reading, a
      counter only grows. */
  datatype ValueType = GaugeValue | CounterValue

  /** The metric families: one per recognised section tag. */
  datatype Family = Inverters | Eim | TotalConsumption | NetConsumption {
    predicate IsProduction() { this == Inverters || this == Eim }
  }

  /** The package-level descriptors, one constructor per descriptor variable.
      Each is a distinct object in the program, so a metric refers to its
      descriptor by identity. */
  datatype Desc =
    | ActivePanelCount
    | ProductionInverterWatts
    | ProductionInverterWattHours
    | ProductionWatts
    | ProductionWattHours
    | ProductionWattHoursToday
    | ProductionRmsCurrent
    | ProductionRmsVoltage
    | ProductionReactivePowerWatts
    | ProductionApparentPowerWatts
    | ProductionPowerFactor
    | ConsumptionWatts
    | ConsumptionWattHours
    | ConsumptionWattHoursToday
    | ConsumptionRmsCurrent
    | ConsumptionRmsVoltage
    | ConsumptionReactivePowerWatts
    | ConsumptionApparentPowerWatts
    | ConsumptionPowerFactor
    | ConsumptionGridWatts
    | ConsumptionGridWattHours
    | ConsumptionGridWattHoursToday
    | ConsumptionGridRmsCurrent
    | ConsumptionGridRmsVoltage
    | ConsumptionGridReactivePowerWatts
    | ConsumptionGridApparentPowerWatts
    | ConsumptionGridPowerFactor
  {
    /** The metric name the descriptor was created with. */
    function Name(): string {
      match this
      case ActivePanelCount => "envoy_active_panel_count"
      case ProductionInverterWatts => "envoy_production_inverter_watts"
      case ProductionInverterWattHours => "envoy_production_inverter_watthours"
      case ProductionWatts => "envoy_production_watts"
      case ProductionWattHours => "envoy_production_watthours"
      case ProductionWattHoursToday => "envoy_production_watthours_today"
      case ProductionRmsCurrent => "envoy_production_rms_current_amps"
      case ProductionRmsVoltage => "envoy_production_rms_voltage_volts"
      case ProductionReactivePowerWatts => "envoy_production_reactive_power_watts"
      case ProductionApparentPowerWatts => "envoy_production_apparent_power_watts"
      case ProductionPowerFactor => "envoy_production_power_factor"
      case ConsumptionWatts => "envoy_consumption_watts"
      case ConsumptionWattHours => "envoy_consumption_watthours"
      case ConsumptionWattHoursToday => "envoy_consumption_watthours_today"
      case ConsumptionRmsCurrent => "envoy_consumption_rms_current_amps"
      case ConsumptionRmsVoltage => "envoy_consumption_rms_voltage_volts"
      case ConsumptionReactivePowerWatts => "envoy_consumption_reactive_power_watts"
      case ConsumptionApparentPowerWatts => "envoy_consumption_apparent_power_watts"
      case ConsumptionPowerFactor => "envoy_consumption_power_factor"
      case ConsumptionGridWatts => "envoy_consumption_grid_watts"
      case ConsumptionGridWattHours => "envoy_consumption_grid_watthours"
      case ConsumptionGridWattHoursToday => "envoy_consumption_grid_watthours_today"
      case ConsumptionGridRmsCurrent => "envoy_consumption_grid_rms_current_amps"
      case ConsumptionGridRmsVoltage => "envoy_consumption_grid_rms_voltage_volts"
      case ConsumptionGridReactivePowerWatts => "envoy_consumption_grid_reactive_power_watts"
      case ConsumptionGridApparentPowerWatts => "envoy_consumption_grid_apparent_power_watts"
      case ConsumptionGridPowerFactor => "envoy_consumption_grid_power_factor"
    }

    /** The help text the descriptor was created with. */
    function Help(): string {
      match this
      case ActivePanelCount => "Number of panels producing power"
      case ProductionInverterWatts => "Amount of watts being produced per inverter"
      case ProductionInverterWattHours => "Amount of watthours produced per inverter"
      case ProductionWatts => "Amount of watts being produced"
      case ProductionWattHours => "Amount of watthours produced"
      case ProductionWattHoursToday => "Amount of watthours produced today"
      case ConsumptionWatts => "Amount of watts being consumed"
      case ConsumptionWattHours => "Amount of watthours consumed"
      case ConsumptionWattHoursToday => "Amount of watthours consumed today"
      case ConsumptionGridWatts => "Amount of watts being consumed from the grid"
      case ConsumptionGridWattHours => "Amount of watthours consumed from the grid"
      case ConsumptionGridWattHoursToday => "Amount of watthours consumed from the grid today"
      case _ => ""
    }

    /** The family of the section tag this descriptor is emitted for. */
    function FamilyOf(): Family {
      match this
      case ActivePanelCount | ProductionInverterWatts | ProductionInverterWattHours => Inverters
      case ProductionWatts | ProductionWattHours | ProductionWattHoursToday
         | ProductionRmsCurrent | ProductionRmsVoltage | ProductionReactivePowerWatts
         | ProductionApparentPowerWatts | ProductionPowerFactor => Eim
      case ConsumptionWatts | ConsumptionWattHours | ConsumptionWattHoursToday
         | ConsumptionRmsCurrent | ConsumptionRmsVoltage | ConsumptionReactivePowerWatts
         | ConsumptionApparentPowerWatts | ConsumptionPowerFactor => TotalConsumption
      case _ => NetConsumption
    }

    /** The section field a metric under this descriptor carries. */
    function Reads(): Field {
      match this
      case ActivePanelCount => ActiveCount
      case ProductionInverterWatts | ProductionWatts | ConsumptionWatts | ConsumptionGridWatts => WNow
      case ProductionInverterWattHours | ProductionWattHours | ConsumptionWattHours
         | ConsumptionGridWattHours => WhLifetime
      case ProductionWattHoursToday | ConsumptionWattHoursToday | ConsumptionGridWattHoursToday => WhToday
      case ProductionRmsCurrent | ConsumptionRmsCurrent | ConsumptionGridRmsCurrent => RmsCurrent
      case ProductionRmsVoltage | ConsumptionRmsVoltage | ConsumptionGridRmsVoltage => RmsVoltage
      case ProductionReactivePowerWatts | ConsumptionReactivePowerWatts
         | ConsumptionGridReactivePowerWatts => ReactPwr
      case ProductionApparentPowerWatts | ConsumptionApparentPowerWatts
         | ConsumptionGridApparentPowerWatts => ApprntPwr
      case ProductionPowerFactor | ConsumptionPowerFactor | ConsumptionGridPowerFactor => PwrFactor
    }
  }

  /** The value type a field is exposed with: the lifetime and today
      watt-hour totals are counters, every other reading is a gauge. */
  function FieldKind(f: Field): ValueType {
    if f == WhLifetime || f == WhToday then CounterValue else GaugeValue
  }

  /** The fields each family reports, in emission order. */
  function FamilyFields(fam: Family): seq<Field> {
    match fam
    case Inverters => [ActiveCount, WhLifetime, WNow]
    case Eim => [RmsCurrent, RmsVoltage, ReactPwr, ApprntPwr, PwrFactor, WhLifetime, WhToday, WNow]
    case TotalConsumption | NetConsumption =>
      [WhLifetime, WhToday, WNow, RmsCurrent, RmsVoltage, ReactPwr, ApprntPwr, PwrFactor]
  }

  /** No family reports the same field twice. */
  lemma FamilyFieldsDistinct(fam: Family)
    ensures forall i, j :: 0 <= i < j < |FamilyFields(fam)| ==> FamilyFields(fam)[i] != FamilyFields(fam)[j]
  {
  }

  // ---- Reference reading of metric names ----

  predicate StartsWith(s: string, prefix: string) {
    |prefix| <= |s| && s[..|prefix|] == prefix
  }

  predicate EndsWith(s: string, suffix: string) {
    |suffix| <= |s| && s[|s| - |suffix|..] == suffix
  }

  /** The name prefix shared by the metrics of a family. */
  function FamilyPrefix(fam: Family): string {
    match fam
    case Inverters => "envoy_production_inverter_"
    case Eim => "envoy_production_"
    case TotalConsumption => "envoy_consumption_"
    case NetConsumption => "envoy_consumption_grid_"
  }

  /** The field a name stem (the name without its family prefix) stands for. */
  function StemField(stem: string): Option<Field> {
    if stem == "watts" then Some(WNow)
    else if stem == "watthours" then Some(WhLifetime)
    else if stem == "watthours_today" then Some(WhToday)
    else if stem == "rms_current_amps" then Some(RmsCurrent)
    else if stem == "rms_voltage_volts" then Some(RmsVoltage)
    else if stem == "reactive_power_watts" then Some(ReactPwr)
    else if stem == "apparent_power_watts" then Some(ApprntPwr)
    else if stem == "power_factor" then Some(PwrFactor)
    else None
  }

  /** Name `name` stands for field `f` of family `fam`: the panel count
      belongs to the inverter family; every other name is its family's
      prefix followed by the stem of the field it reports. */
  predicate Names(name: string, fam: Family, f: Field) {
    (fam == Inverters && f == ActiveCount && name == "envoy_active_panel_count") ||
    (StartsWith(name, FamilyPrefix(fam)) && StemField(name[|FamilyPrefix(fam)|..]) == Some(f))
  }

  /** Reference rule for the value type, from the name alone: names ending
      in the watt-hour units are counters, all others gauges. */
  function NamedKind(name: string): ValueType {
    if EndsWith(name, "_watthours") || EndsWith(name, "_watthours_today") then CounterValue
    else GaugeValue
  }

  /** Every stem begins with one of the letters w, r, a or p. */
  lemma StemInitial(stem: string)
    requires StemField(stem).Some?
    ensures |stem| > 0 && stem[0] in {'w', 'r', 'a', 'p'}
  {
  }

  /** The reference reading is unambiguous: a name stands for at most one
      family and field. */
  lemma NamesUnique(name: string, fam1: Family, f1: Field, fam2: Family, f2: Field)
    requires Names(name, fam1, f1) && Names(name, fam2, f2)
    ensures fam1 == fam2 && f1 == f2
  {
    PanelCountOnly(name, fam1, f1);
    PanelCountOnly(name, fam2, f2);
    if f1 != ActiveCount && f2 != ActiveCount {
      FamilyFromName(name, fam1, f1);
      FamilyFromName(name, fam2, f2);
      assert fam1 == fam2;
    }
  }

  /** Which family a prefixed name belongs to shows in three of its
      characters: "p" or "c" after "envoy_", then the "i" of "inverter_"
      or the "g" of "grid_". */
  lemma FamilyFromName(name: string, fam: Family, f: Field)
    requires Names(name, fam, f) && f != ActiveCount
    ensures |name| > 18
    ensures fam.IsProduction() <==> name[6] == 'p'
    ensures fam == Inverters <==> name[6] == 'p' && name[17] == 'i'
    ensures fam == NetConsumption <==> name[6] == 'c' && name[18] == 'g'
  {
    var p := FamilyPrefix(fam);
    var stem := name[|p|..];
    StemInitial(stem);
    assert name[..|p|] == p;
    match fam
    case Inverters => assert name[6] == p[6] && name[17] == p[17];
    case Eim => assert name[6] == p[6] && name[17] == stem[0];
    case TotalConsumption => assert name[6] == p[6] && name[18] == stem[0];
    case NetConsumption => assert name[6] == p[6] && name[18] == p[18];
  }

  /** Only the panel-count name stands for the active-device count, and
      it stands for nothing else. */
  lemma PanelCountOnly(name: string, fam: Family, f: Field)
    requires Names(name, fam, f)
    ensures f == ActiveCount <==> name == "envoy_active_panel_count"
    ensures f == ActiveCount ==> fam == Inverters
  {
    var p := FamilyPrefix(fam);
    if StartsWith(name, p) && StemField(name[|p|..]) == Some(f) {
      assert p[6] != 'a';
      assert name[6] == name[..|p|][6] == p[6];
      assert "envoy_active_panel_count"[6] == 'a';
    }
  }

  /** Descriptor `d`'s name reads, under the reference rules, as the family
      and field the mapping table gives it. */
  predicate NameReads(d: Desc) {
    Names(d.Name(), d.FamilyOf(), d.Reads())
  }

  /** Descriptor `d`'s name reads, under the reference rules, as the value
      type of the field the mapping table gives it. */
  predicate NameTypes(d: Desc) {
    NamedKind(d.Name()) == FieldKind(d.Reads())
  }

  /** Every descriptor's name agrees with the mapping table. */
  lemma DescriptorNamesAgree(d: Desc)
    ensures NameReads(d) && NameTypes(d)
  {
    match d
    case ActivePanelCount => ActivePanelCountReads(); ActivePanelCountTypes();
    case ProductionInverterWatts => ProductionInverterWattsReads(); ProductionInverterWattsTypes();
    case ProductionInverterWattHours => ProductionInverterWattHoursReads(); ProductionInverterWattHoursTypes();
    case ProductionWatts => ProductionWattsReads(); ProductionWattsTypes();
    case ProductionWattHours => ProductionWattHoursReads(); ProductionWattHoursTypes();
    case ProductionWattHoursToday => ProductionWattHoursTodayReads(); ProductionWattHoursTodayTypes();
    case ProductionRmsCurrent => ProductionRmsCurrentReads(); ProductionRmsCurrentTypes();
    case ProductionRmsVoltage => ProductionRmsVoltageReads(); ProductionRmsVoltageTypes();
    case ProductionReactivePowerWatts => ProductionReactivePowerWattsReads(); ProductionReactivePowerWattsTypes();
    case ProductionApparentPowerWatts => ProductionApparentPowerWattsReads(); ProductionApparentPowerWattsTypes();
    case ProductionPowerFactor => ProductionPowerFactorReads(); ProductionPowerFactorTypes();
    case ConsumptionWatts => ConsumptionWattsReads(); ConsumptionWattsTypes();
    case ConsumptionWattHours => ConsumptionWattHoursReads(); ConsumptionWattHoursTypes();
    case ConsumptionWattHoursToday => ConsumptionWattHoursTodayReads(); ConsumptionWattHoursTodayTypes();
    case ConsumptionRmsCurrent => ConsumptionRmsCurrentReads(); ConsumptionRmsCurrentTypes();
    case ConsumptionRmsVoltage => ConsumptionRmsVoltageReads(); ConsumptionRmsVoltageTypes();
    case ConsumptionReactivePowerWatts => ConsumptionReactivePowerWattsReads(); ConsumptionReactivePowerWattsTypes();
    case ConsumptionApparentPowerWatts => ConsumptionApparentPowerWattsReads(); ConsumptionApparentPowerWattsTypes();
    case ConsumptionPowerFactor => ConsumptionPowerFactorReads(); ConsumptionPowerFactorTypes();
    case ConsumptionGridWatts => ConsumptionGridWattsReads(); ConsumptionGridWattsTypes();
    case ConsumptionGridWattHours => ConsumptionGridWattHoursReads(); ConsumptionGridWattHoursTypes();
    case ConsumptionGridWattHoursToday => ConsumptionGridWattHoursTodayReads(); ConsumptionGridWattHoursTodayTypes();
    case ConsumptionGridRmsCurrent => ConsumptionGridRmsCurrentReads(); ConsumptionGridRmsCurrentTypes();
    case ConsumptionGridRmsVoltage => ConsumptionGridRmsVoltageReads(); ConsumptionGridRmsVoltageTypes();
    case ConsumptionGridReactivePowerWatts => ConsumptionGridReactivePowerWattsReads(); ConsumptionGridReactivePowerWattsTypes();
    case ConsumptionGridApparentPowerWatts => ConsumptionGridApparentPowerWattsReads(); ConsumptionGridApparentPowerWattsTypes();
    case ConsumptionGridPowerFactor => ConsumptionGridPowerFactorReads(); ConsumptionGridPowerFactorTypes();
  }

  /** No two descriptors are emitted for the same family and field. */
  lemma TableInjective(d1: Desc, d2: Desc)
    requires d1.FamilyOf() == d2.FamilyOf() && d1.Reads() == d2.Reads()
    ensures d1 == d2
  {
  }

  /** Distinct descriptors carry distinct metric names. */
  lemma DescriptorNamesDistinct(d1: Desc, d2: Desc)
    requires d1 != d2
    ensures d1.Name() != d2.Name()
  {
    DescriptorNamesAgree(d1);
    DescriptorNamesAgree(d2);
    if d1.Name() == d2.Name() {
      NamesUnique(d1.Name(), d1.FamilyOf(), d1.Reads(), d2.FamilyOf(), d2.Reads());
      TableInjective(d1, d2);
    }
  }

  // One fact per descriptor and rule, each checked on its own: proving all
  // 27 name literals in one lemma is beyond the solver's budget, so
  // DescriptorNamesAgree dispatches to these one-line lemmas instead.
  lemma ActivePanelCountReads() ensures NameReads(ActivePanelCount) { }
  lemma ActivePanelCountTypes() ensures NameTypes(ActivePanelCount) { }
  lemma ProductionInverterWattsReads() ensures NameReads(ProductionInverterWatts) { }
  lemma ProductionInverterWattsTypes() ensures NameTypes(ProductionInverterWatts) { }
  lemma ProductionInverterWattHoursReads() ensures NameReads(ProductionInverterWattHours) { }
  lemma ProductionInverterWattHoursTypes() ensures NameTypes(ProductionInverterWattHours) { }
  lemma ProductionWattsReads() ensures NameReads(ProductionWatts) { }
  lemma ProductionWattsTypes() ensures NameTypes(ProductionWatts) { }
  lemma ProductionWattHoursReads() ensures NameReads(ProductionWattHours) { }
  lemma ProductionWattHoursTypes() ensures NameTypes(ProductionWattHours) { }
  lemma ProductionWattHoursTodayReads() ensures NameReads(ProductionWattHoursToday) { }
  lemma ProductionWattHoursTodayTypes() ensures NameTypes(ProductionWattHoursToday) { }
  lemma ProductionRmsCurrentReads() ensures NameReads(ProductionRmsCurrent) { }
  lemma ProductionRmsCurrentTypes() ensures NameTypes(ProductionRmsCurrent) { }
  lemma ProductionRmsVoltageReads() ensures NameReads(ProductionRmsVoltage) { }
  lemma ProductionRmsVoltageTypes() ensures NameTypes(ProductionRmsVoltage) { }
  lemma ProductionReactivePowerWattsReads() ensures NameReads(ProductionReactivePowerWatts) { }
  lemma ProductionReactivePowerWattsTypes() ensures NameTypes(ProductionReactivePowerWatts) { }
  lemma ProductionApparentPowerWattsReads() ensures NameReads(ProductionApparentPowerWatts) { }
  lemma ProductionApparentPowerWattsTypes() ensures NameTypes(ProductionApparentPowerWatts) { }
  lemma ProductionPowerFactorReads() ensures NameReads(ProductionPowerFactor) { }
  lemma ProductionPowerFactorTypes() ensures NameTypes(ProductionPowerFactor) { }
  lemma ConsumptionWattsReads() ensures NameReads(ConsumptionWatts) { }
  lemma ConsumptionWattsTypes() ensures NameTypes(ConsumptionWatts) { }
  lemma ConsumptionWattHoursReads() ensures NameReads(ConsumptionWattHours) { }
  lemma ConsumptionWattHoursTypes() ensures NameTypes(ConsumptionWattHours) { }
  lemma ConsumptionWattHoursTodayReads() ensures NameReads(ConsumptionWattHoursToday) { }
  lemma ConsumptionWattHoursTodayTypes() ensures NameTypes(ConsumptionWattHoursToday) { }
  lemma ConsumptionRmsCurrentReads() ensures NameReads(ConsumptionRmsCurrent) { }
  lemma ConsumptionRmsCurrentTypes() ensures NameTypes(ConsumptionRmsCurrent) { }
  lemma ConsumptionRmsVoltageReads() ensures NameReads(ConsumptionRmsVoltage) { }
  lemma ConsumptionRmsVoltageTypes() ensures NameTypes(ConsumptionRmsVoltage) { }
  lemma ConsumptionReactivePowerWattsReads() ensures NameReads(ConsumptionReactivePowerWatts) { }
  lemma ConsumptionReactivePowerWattsTypes() ensures NameTypes(ConsumptionReactivePowerWatts) { }
  lemma ConsumptionApparentPowerWattsReads() ensures NameReads(ConsumptionApparentPowerWatts) { }
  lemma ConsumptionApparentPowerWattsTypes() ensures NameTypes(ConsumptionApparentPowerWatts) { }
  lemma ConsumptionPowerFactorReads() ensures NameReads(ConsumptionPowerFactor) { }
  lemma ConsumptionPowerFactorTypes() ensures NameTypes(ConsumptionPowerFactor) { }
  lemma ConsumptionGridWattsReads() ensures NameReads(ConsumptionGridWatts) { }
  lemma ConsumptionGridWattsTypes() ensures NameTypes(ConsumptionGridWatts) { }
  lemma ConsumptionGridWattHoursReads() ensures NameReads(ConsumptionGridWattHours) { }
  lemma ConsumptionGridWattHoursTypes() ensures NameTypes(ConsumptionGridWattHours) { }
  lemma ConsumptionGridWattHoursTodayReads() ensures NameReads(ConsumptionGridWattHoursToday) { }
  lemma ConsumptionGridWattHoursTodayTypes() ensures NameTypes(ConsumptionGridWattHoursToday) { }
  lemma ConsumptionGridRmsCurrentReads() ensures NameReads(ConsumptionGridRmsCurrent) { }
  lemma ConsumptionGridRmsCurrentTypes() ensures NameTypes(ConsumptionGridRmsCurrent) { }
  lemma ConsumptionGridRmsVoltageReads() ensures NameReads(ConsumptionGridRmsVoltage) { }
  lemma ConsumptionGridRmsVoltageTypes() ensures NameTypes(ConsumptionGridRmsVoltage) { }
  lemma ConsumptionGridReactivePowerWattsReads() ensures NameReads(ConsumptionGridReactivePowerWatts) { }
  lemma ConsumptionGridReactivePowerWattsTypes() ensures NameTypes(ConsumptionGridReactivePowerWatts) { }
  lemma ConsumptionGridApparentPowerWattsReads() ensures NameReads(ConsumptionGridApparentPowerWatts) { }
  lemma ConsumptionGridApparentPowerWattsTypes() ensures NameTypes(ConsumptionGridApparentPowerWatts) { }
  lemma ConsumptionGridPowerFactorReads() ensures NameReads(ConsumptionGridPowerFactor) { }
  lemma ConsumptionGridPowerFactorTypes() ensures NameTypes(ConsumptionGridPowerFactor) { }
}
