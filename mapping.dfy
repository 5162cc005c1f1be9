/** The report-to-metrics mapping: which metrics each section produces, and
    how the sections of a whole report combine into one ordered batch. */
module Mapping {
  import opened Report
  import opened Descriptors

  /** One observation: a constant metric built from a descriptor, a value
      type and a value. */
  datatype Metric = ConstMetric(desc: Desc, valueType: ValueType, value: int)

  /** `obs` is exactly the emission of family `fam` for section `s`: one
      metric per field of the family, in the family's order, each under a
      descriptor of that family and for that field, exposed with that
      field's value type and carrying that field of `s`. */
  predicate Conforms(obs: seq<Metric>, s: Section, fam: Family) {
    |obs| == |FamilyFields(fam)| &&
    forall i :: 0 <= i < |obs| ==>
      obs[i].desc.FamilyOf() == fam &&
      obs[i].desc.Reads() == FamilyFields(fam)[i] &&
      obs[i].valueType == FieldKind(FamilyFields(fam)[i]) &&
      obs[i].value == s.Get(FamilyFields(fam)[i])
  }

  /** The metrics of a production section tagged "inverters". */
  function InverterMetrics(s: Section): (r: seq<Metric>)
    ensures Conforms(r, s, Inverters)
  {
    [ ConstMetric(ActivePanelCount, GaugeValue, s.activeCount),
      ConstMetric(ProductionInverterWattHours, CounterValue, s.whLifetime),
      ConstMetric(ProductionInverterWatts, GaugeValue, s.wNow) ]
  }

  /** The metrics of a production section tagged "eim" (the AC meter). */
  function EimMetrics(s: Section): (r: seq<Metric>)
    ensures Conforms(r, s, Eim)
  {
    [ ConstMetric(ProductionRmsCurrent, GaugeValue, s.rmsCurrent),
      ConstMetric(ProductionRmsVoltage, GaugeValue, s.rmsVoltage),
      ConstMetric(ProductionReactivePowerWatts, GaugeValue, s.reactPwr),
      ConstMetric(ProductionApparentPowerWatts, GaugeValue, s.apprntPwr),
      ConstMetric(ProductionPowerFactor, GaugeValue, s.pwrFactor),
      ConstMetric(ProductionWattHours, CounterValue, s.whLifetime),
      ConstMetric(ProductionWattHoursToday, CounterValue, s.whToday),
      ConstMetric(ProductionWatts, GaugeValue, s.wNow) ]
  }

  /** The metrics of a consumption section measuring "total-consumption". */
  function TotalConsumptionMetrics(s: Section): (r: seq<Metric>)
    ensures Conforms(r, s, TotalConsumption)
  {
    [ ConstMetric(ConsumptionWattHours, CounterValue, s.whLifetime),
      ConstMetric(ConsumptionWattHoursToday, CounterValue, s.whToday),
      ConstMetric(ConsumptionWatts, GaugeValue, s.wNow),
      ConstMetric(ConsumptionRmsCurrent, GaugeValue, s.rmsCurrent),
      ConstMetric(ConsumptionRmsVoltage, GaugeValue, s.rmsVoltage),
      ConstMetric(ConsumptionReactivePowerWatts, GaugeValue, s.reactPwr),
      ConstMetric(ConsumptionApparentPowerWatts, GaugeValue, s.apprntPwr),
      ConstMetric(ConsumptionPowerFactor, GaugeValue, s.pwrFactor) ]
  }

  /** The metrics of a consumption section measuring "net-consumption". */
  function NetConsumptionMetrics(s: Section): (r: seq<Metric>)
    ensures Conforms(r, s, NetConsumption)
  {
    [ ConstMetric(ConsumptionGridWattHours, CounterValue, s.whLifetime),
      ConstMetric(ConsumptionGridWattHoursToday, CounterValue, s.whToday),
      ConstMetric(ConsumptionGridWatts, GaugeValue, s.wNow),
      ConstMetric(ConsumptionGridRmsCurrent, GaugeValue, s.rmsCurrent),
      ConstMetric(ConsumptionGridRmsVoltage, GaugeValue, s.rmsVoltage),
      ConstMetric(ConsumptionGridReactivePowerWatts, GaugeValue, s.reactPwr),
      ConstMetric(ConsumptionGridApparentPowerWatts, GaugeValue, s.apprntPwr),
      ConstMetric(ConsumptionGridPowerFactor, GaugeValue, s.pwrFactor) ]
  }

  /** The metrics family `fam` emits for section `s`. */
  function FamilyMetrics(fam: Family, s: Section): (r: seq<Metric>)
    ensures Conforms(r, s, fam)
  {
    match fam
    case Inverters => InverterMetrics(s)
    case Eim => EimMetrics(s)
    case TotalConsumption => TotalConsumptionMetrics(s)
    case NetConsumption => NetConsumptionMetrics(s)
  }

  /** The family a production section is reported under, chosen by its
      `sectionType` tag; `None` for a tag the collector does not know. */
  function ProductionFamily(s: Section): Option<Family> {
    if s.sectionType == "inverters" then Some(Inverters)
    else if s.sectionType == "eim" then Some(Eim)
    else None
  }

  /** The family a consumption section is reported under, chosen by its
      `measurementType` tag; `None` for a tag the collector does not know. */
  function ConsumptionFamily(s: Section): Option<Family> {
    if s.measurementType == "total-consumption" then Some(TotalConsumption)
    else if s.measurementType == "net-consumption" then Some(NetConsumption)
    else None
  }

  /** The metrics one production section contributes. */
  function ProductionMetrics(s: Section): (r: seq<Metric>)
    ensures match ProductionFamily(s)
      case Some(fam) => Conforms(r, s, fam)
      case None => r == []
  {
    match ProductionFamily(s)
    case Some(fam) => FamilyMetrics(fam, s)
    case None => []
  }

  /** The metrics one consumption section contributes. */
  function ConsumptionMetrics(s: Section): (r: seq<Metric>)
    ensures match ConsumptionFamily(s)
      case Some(fam) => Conforms(r, s, fam)
      case None => r == []
  {
    match ConsumptionFamily(s)
    case Some(fam) => FamilyMetrics(fam, s)
    case None => []
  }

  /** The production metrics of a section, read off its tag directly. */
  lemma ProductionByTag(s: Section)
    ensures s.sectionType == "inverters" ==> ProductionMetrics(s) == InverterMetrics(s)
    ensures s.sectionType != "inverters" && s.sectionType == "eim" ==> ProductionMetrics(s) == EimMetrics(s)
    ensures s.sectionType != "inverters" && s.sectionType != "eim" ==> ProductionMetrics(s) == []
  {
  }

  /** The consumption metrics of a section, read off its tag directly. */
  lemma ConsumptionByTag(s: Section)
    ensures s.measurementType == "total-consumption" ==> ConsumptionMetrics(s) == TotalConsumptionMetrics(s)
    ensures s.measurementType != "total-consumption" && s.measurementType == "net-consumption" ==>
      ConsumptionMetrics(s) == NetConsumptionMetrics(s)
    ensures s.measurementType != "total-consumption" && s.measurementType != "net-consumption" ==>
      ConsumptionMetrics(s) == []
  {
  }

  /** The metrics a list of sections contributes, section after section. */
  function Batch(sections: seq<Section>, emit: Section -> seq<Metric>): seq<Metric> {
    if sections == [] then []
    else Batch(sections[..|sections| - 1], emit) + emit(sections[|sections| - 1])
  }

  /** The batch one successful scrape emits for `report`: the production
      sections' metrics, then the consumption sections' metrics. */
  function ReportMetrics(report: ProductionReport): seq<Metric> {
    Batch(report.production, ProductionMetrics) + Batch(report.consumption, ConsumptionMetrics)
  }

  /** The number of sections that `classify` puts in family `fam`. */
  function Count(sections: seq<Section>, classify: Section -> Option<Family>, fam: Family): nat {
    if sections == [] then 0
    else Count(sections[..|sections| - 1], classify, fam) + (if classify(sections[|sections| - 1]) == Some(fam) then 1 else 0)
  }

  // ---- Properties of the batch ----

  /** Sections contribute independently: the batch of two lists is the
      concatenation of their batches. */
  lemma {:induction false} BatchAppend(a: seq<Section>, b: seq<Section>, emit: Section -> seq<Metric>)
    ensures Batch(a + b, emit) == Batch(a, emit) + Batch(b, emit)
  {
    if b == [] {
      assert a + b == a;
    } else {
      var b' := b[..|b| - 1];
      assert (a + b)[..|a + b| - 1] == a + b';
      assert (a + b)[|a + b| - 1] == b[|b| - 1];
      BatchAppend(a, b', emit);
    }
  }

  /** Taking one more section of a list adds that section's metrics at the
      end of the batch. */
  lemma BatchExtend(sections: seq<Section>, i: nat, emit: Section -> seq<Metric>)
    requires i < |sections|
    ensures Batch(sections[..i + 1], emit) == Batch(sections[..i], emit) + emit(sections[i])
  {
    assert sections[..i + 1][..i] == sections[..i];
  }

  /** Taking one more consumption section of a report adds that section's
      metrics at the end of the scrape's batch. */
  lemma ReportExtendConsumption(report: ProductionReport, j: nat)
    requires j < |report.consumption|
    ensures ReportMetrics(report.(consumption := report.consumption[..j + 1]))
         == ReportMetrics(report.(consumption := report.consumption[..j])) + ConsumptionMetrics(report.consumption[j])
  {
    BatchExtend(report.consumption, j, ConsumptionMetrics);
  }

  /** Section `i`'s metrics sit, in place, between those of the sections
      before it and those of the sections after it. */
  lemma BatchAt(sections: seq<Section>, i: nat, emit: Section -> seq<Metric>)
    requires i < |sections|
    ensures Batch(sections, emit)
         == Batch(sections[..i], emit) + emit(sections[i]) + Batch(sections[i + 1..], emit)
  {
    var upto := sections[..i + 1];
    assert sections == upto + sections[i + 1..];
    BatchAppend(upto, sections[i + 1..], emit);
    assert upto[..|upto| - 1] == sections[..i] && upto[|upto| - 1] == sections[i];
  }

  /** Taking out a section that contributes nothing leaves the batch as it
      was. */
  lemma BatchDropSilent(sections: seq<Section>, i: nat, emit: Section -> seq<Metric>)
    requires i < |sections| && emit(sections[i]) == []
    ensures Batch(sections, emit) == Batch(sections[..i] + sections[i + 1..], emit)
  {
    BatchAt(sections, i, emit);
    BatchAppend(sections[..i], sections[i + 1..], emit);
  }

  /** A property every section's metrics have holds of every metric of the
      batch. */
  lemma {:induction false} BatchAll(sections: seq<Section>, emit: Section -> seq<Metric>, p: Metric -> bool)
    requires forall s, m :: m in emit(s) ==> p(m)
    ensures forall m :: m in Batch(sections, emit) ==> p(m)
  {
    if sections != [] {
      BatchAll(sections[..|sections| - 1], emit, p);
    }
  }

  /** Every metric of the batch stands in relation `p` to some section of
      the list, when each section's metrics stand in `p` to that section. */
  lemma {:induction false} BatchFrom(sections: seq<Section>, emit: Section -> seq<Metric>, p: (Section, Metric) -> bool)
    requires forall s, m :: m in emit(s) ==> p(s, m)
    ensures forall m :: m in Batch(sections, emit) ==> exists s :: s in sections && p(s, m)
  {
    if sections != [] {
      var init := sections[..|sections| - 1];
      BatchFrom(init, emit, p);
      forall m | m in Batch(sections, emit) ensures exists s :: s in sections && p(s, m) {
        if m in Batch(init, emit) {
          var s :| s in init && p(s, m);
          assert s in sections;
        } else {
          assert p(sections[|sections| - 1], m);
        }
      }
    }
  }

  /** An "inverters" section adds 3 metrics and an "eim" section 8; any other
      production section adds none. */
  lemma {:induction false} ProductionBatchLength(sections: seq<Section>)
    ensures |Batch(sections, ProductionMetrics)|
         == 3 * Count(sections, ProductionFamily, Inverters) + 8 * Count(sections, ProductionFamily, Eim)
  {
    if sections != [] {
      ProductionBatchLength(sections[..|sections| - 1]);
    }
  }

  /** A "total-consumption" or "net-consumption" section adds 8 metrics; any
      other consumption section adds none. */
  lemma {:induction false} ConsumptionBatchLength(sections: seq<Section>)
    ensures |Batch(sections, ConsumptionMetrics)|
         == 8 * Count(sections, ConsumptionFamily, TotalConsumption)
          + 8 * Count(sections, ConsumptionFamily, NetConsumption)
  {
    if sections != [] {
      ConsumptionBatchLength(sections[..|sections| - 1]);
    }
  }

  /** The size of a scrape's batch, counted by section tag. */
  lemma ReportMetricsLength(report: ProductionReport)
    ensures |ReportMetrics(report)|
         == 3 * Count(report.production, ProductionFamily, Inverters)
          + 8 * Count(report.production, ProductionFamily, Eim)
          + 8 * Count(report.consumption, ConsumptionFamily, TotalConsumption)
          + 8 * Count(report.consumption, ConsumptionFamily, NetConsumption)
  {
    ProductionBatchLength(report.production);
    ConsumptionBatchLength(report.consumption);
  }

  /** Dropping a production section with an unknown tag leaves the batch
      unchanged: it contributes nothing and does not disturb its siblings. */
  lemma UnknownProductionSectionIgnored(report: ProductionReport, i: nat)
    requires i < |report.production| && ProductionFamily(report.production[i]) == None
    ensures ReportMetrics(report)
         == ReportMetrics(report.(production := report.production[..i] + report.production[i + 1..]))
  {
    BatchDropSilent(report.production, i, ProductionMetrics);
  }

  /** Dropping a consumption section with an unknown tag leaves the batch
      unchanged. */
  lemma UnknownConsumptionSectionIgnored(report: ProductionReport, i: nat)
    requires i < |report.consumption| && ConsumptionFamily(report.consumption[i]) == None
    ensures ReportMetrics(report)
         == ReportMetrics(report.(consumption := report.consumption[..i] + report.consumption[i + 1..]))
  {
    BatchDropSilent(report.consumption, i, ConsumptionMetrics);
  }

  /** Every production metric comes before every consumption metric. */
  lemma ProductionBeforeConsumption(report: ProductionReport)
    ensures forall i, j :: 0 <= i < j < |ReportMetrics(report)| && ReportMetrics(report)[j].desc.FamilyOf().IsProduction()
              ==> ReportMetrics(report)[i].desc.FamilyOf().IsProduction()
  {
    var pb: seq<Metric>, cb: seq<Metric> := Batch(report.production, ProductionMetrics), Batch(report.consumption, ConsumptionMetrics);
    BatchAll(report.production, ProductionMetrics, (m: Metric) => m.desc.FamilyOf().IsProduction());
    BatchAll(report.consumption, ConsumptionMetrics, (m: Metric) => !m.desc.FamilyOf().IsProduction());
    forall k | 0 <= k < |pb| ensures (pb + cb)[k].desc.FamilyOf().IsProduction() {
      assert (pb + cb)[k] in pb;
    }
    forall k | |pb| <= k < |pb + cb| ensures !(pb + cb)[k].desc.FamilyOf().IsProduction() {
      assert (pb + cb)[k] in cb;
    }
  }

  /** No section emits two metrics under the same name. */
  lemma ConformsDistinctNames(obs: seq<Metric>, s: Section, fam: Family)
    requires Conforms(obs, s, fam)
    ensures forall i, j :: 0 <= i < j < |obs| ==> obs[i].desc.Name() != obs[j].desc.Name()
  {
    FamilyFieldsDistinct(fam);
    forall i, j | 0 <= i < j < |obs| ensures obs[i].desc.Name() != obs[j].desc.Name() {
      DescriptorNamesDistinct(obs[i].desc, obs[j].desc);
    }
  }

  /** Every metric of a scrape is exposed with the value type its name
      calls for (counters exactly for the watt-hour totals), and its name
      reads as its descriptor's family and field. */
  lemma MetricsAgreeWithNames(report: ProductionReport)
    ensures forall m :: m in ReportMetrics(report) ==>
      m.valueType == NamedKind(m.desc.Name()) && Names(m.desc.Name(), m.desc.FamilyOf(), m.desc.Reads())
  {
    var typed := (m: Metric) => m.valueType == FieldKind(m.desc.Reads());
    BatchAll(report.production, ProductionMetrics, typed);
    BatchAll(report.consumption, ConsumptionMetrics, typed);
    forall m | m in ReportMetrics(report)
      ensures m.valueType == NamedKind(m.desc.Name()) && Names(m.desc.Name(), m.desc.FamilyOf(), m.desc.Reads())
    {
      DescriptorNamesAgree(m.desc);
    }
  }

  /** A metric of a conforming emission belongs to the emission's family
      and carries the section field its descriptor reads. */
  lemma ConformsCarries(obs: seq<Metric>, s: Section, fam: Family, m: Metric)
    requires Conforms(obs, s, fam) && m in obs
    ensures m.desc.FamilyOf() == fam && m.value == s.Get(m.desc.Reads())
  {
    var i :| 0 <= i < |obs| && obs[i] == m;
  }

  /** Every metric of a scrape carries, unchanged, the field its descriptor
      reads of one section of the report: a production section whose type
      tag selects the metric's family, or a consumption section whose
      measurement type does. */
  lemma MetricsCarrySectionFields(report: ProductionReport)
    ensures forall m :: m in ReportMetrics(report) ==>
      (exists s :: s in report.production && ProductionFamily(s) == Some(m.desc.FamilyOf()) && m.value == s.Get(m.desc.Reads())) ||
      (exists s :: s in report.consumption && ConsumptionFamily(s) == Some(m.desc.FamilyOf()) && m.value == s.Get(m.desc.Reads()))
  {
    var fromProduction := (s: Section, m: Metric) => ProductionFamily(s) == Some(m.desc.FamilyOf()) && m.value == s.Get(m.desc.Reads());
    var fromConsumption := (s: Section, m: Metric) => ConsumptionFamily(s) == Some(m.desc.FamilyOf()) && m.value == s.Get(m.desc.Reads());
    forall s, m | m in ProductionMetrics(s) ensures fromProduction(s, m) {
      ConformsCarries(ProductionMetrics(s), s, ProductionFamily(s).value, m);
    }
    forall s, m | m in ConsumptionMetrics(s) ensures fromConsumption(s, m) {
      ConformsCarries(ConsumptionMetrics(s), s, ConsumptionFamily(s).value, m);
    }
    BatchFrom(report.production, ProductionMetrics, fromProduction);
    BatchFrom(report.consumption, ConsumptionMetrics, fromConsumption);
  }

  /** A report with one "inverters" section (12 panels, 50000 Wh lifetime,
      3000 W now) and an unknown production section scrapes to exactly the
      panel count, the lifetime counter and the current power, in that
      order and under those names. */
  lemma InverterScrapeExample()
    ensures var s := Section("inverters", "", 12, 50000, 0, 3000, 0, 0, 0, 0, 0);
            var other := Section("storage", "", 1, 2, 3, 4, 5, 6, 7, 8, 9);
            var batch := ReportMetrics(ProductionReport([s, other], []));
            batch == [ ConstMetric(ActivePanelCount, GaugeValue, 12),
                       ConstMetric(ProductionInverterWattHours, CounterValue, 50000),
                       ConstMetric(ProductionInverterWatts, GaugeValue, 3000) ] &&
            batch[0].desc.Name() == "envoy_active_panel_count" &&
            batch[1].desc.Name() == "envoy_production_inverter_watthours" &&
            batch[2].desc.Name() == "envoy_production_inverter_watts"
  {
    var s := Section("inverters", "", 12, 50000, 0, 3000, 0, 0, 0, 0, 0);
    var other := Section("storage", "", 1, 2, 3, 4, 5, 6, 7, 8, 9);
    assert ProductionMetrics(other) == [];
    BatchExtend([s, other], 1, ProductionMetrics);
    assert [s, other][..1] == [s] && [s][..0] == [];
  }
}
