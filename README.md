# prometheus-envoy collector, modelled in Dafny

This project models the scrape path of the prometheus-envoy exporter, which
publishes the readings of an Enphase Envoy solar gateway as Prometheus metrics.
It models `pkg/envoy_collector.go`:

- the descriptor table;
- the `EnvoyCollector` type, `NewEnvoyCollector` and `Describe`;
- `Collect`.

`Collect` does four things:

- it creates the package-wide device client the first time any collector scrapes;
- it fetches one production report through that client;
- on a fetch error it stops and emits nothing;
- otherwise it emits one constant metric per known field of each report section.

Production sections come first, then consumption sections, each list in report order.

Files:

- `report.dfy` (`Report`): the fetched report.
  - A section is a record of its two tags and nine numeric fields.
  - `Section.Get` reads a field by its name.
- `descriptors.dfy` (`Descriptors`): the descriptor table.
  - There is one constructor of `Desc` per package-level descriptor variable, so two metrics share a descriptor exactly when the Go code uses the same variable.
  - `Desc` has the metric name and help text and, as table columns, the metric family and the report field it reads.
  - It also has an independent reading of metric names: the family prefix and the field stem a name is made of, and the value type the name calls for.
  - It has proofs that the table agrees with that reading and that names are unique. Each descriptor has two one-line helper lemmas, `<Desc>Reads` and `<Desc>Types`, each checked on its own and combined by `DescriptorNamesAgree`.
- `mapping.dfy` (`Mapping`): what one section emits, and how the sections of a report combine into one batch. It holds the properties of that batch: its length by tag, its order, that unknown tags are ignored, that every metric carries a field of a section with the matching tag, and that no section repeats a name.
- `collector.dfy` (`Collector`): the imperative part.
  - `Package` holds the package-level `client` variable.
  - `EnvoyCollector` holds `target` and `token`.
  - `Collect` builds its batch with two `while` loops, one per section list. Each loop's invariant ties the batch built so far to `Mapping.Batch` of the sections seen so far.

Modelling choices:

- **Fetch.** The fetch is a function parameter `fetch: Client -> FetchResult`. The device, the network and the JSON decoding are not modelled. Two scrapes that pass the same client to the same `fetch` see the same device state.
- **Output.** The Go metrics channel becomes the returned sequence `metrics`. A send on the channel is an append to that sequence.
- **Values.** Field values are `int`, copied through unchanged. The Go code converts them to `float64`; that conversion is not modelled.
- **Client creation count.** `Package` has a ghost counter `created` of the clients ever created. `Package.Valid` ties the counter to the client field: 0 while there is no client, 1 once there is one.

Behaviour of the code that the model keeps as written:

- **Describe.** `Describe` sends no descriptor at all, so the collector is an unchecked one.
- **Consumption metric order.** "total-consumption" and "net-consumption" emit their eight metrics in the order watt-hours, watt-hours today, watts, current, voltage, reactive power, apparent power, power factor. "eim" emits the same eight fields in a different order: the five gauges for current, voltage, reactive power, apparent power and power factor come first.
- **Bearer token.** The token is attached to the new client only when it is non-empty.
- **Concurrency and timeout.** The code has no lock around the lazy client creation and no fetch timeout.

## Model

| member | source | states |
|---|---|---|
| Mapping.InverterMetrics | pkg/envoy_collector.go:82-97 | An "inverters" section emits exactly three metrics, all under inverter-family descriptors: the active panel count (gauge), the lifetime watt-hours (counter) and the current watts (gauge), in that order. Each carries that field of the section. |
| Mapping.EimMetrics | pkg/envoy_collector.go:98-138 | An "eim" section emits exactly eight production metrics. First come current, voltage, reactive power, apparent power and power factor (gauges), then lifetime watt-hours and watt-hours today (counters), then watts (gauge). Each carries the matching field. |
| Mapping.TotalConsumptionMetrics | pkg/envoy_collector.go:144-184 | A "total-consumption" section emits exactly eight consumption-family metrics, in this order: watt-hours and watt-hours today (counters), then watts, current, voltage, reactive, apparent and power factor (gauges). Each carries the matching field. |
| Mapping.NetConsumptionMetrics | pkg/envoy_collector.go:185-226 | A "net-consumption" section emits the same eight fields in the same order, under the grid-consumption descriptors. |
| Mapping.FamilyMetrics | pkg/envoy_collector.go:81-227 | A section emitted under a family yields exactly that family's emission: one metric per family field, in order, with that field's value type and value. |
| Mapping.ProductionMetrics | pkg/envoy_collector.go:80-140 | A production section emits its family's metrics when its type tag is "inverters" or "eim", and nothing for any other tag. |
| Mapping.ConsumptionMetrics | pkg/envoy_collector.go:142-228 | A consumption section emits its family's metrics when its measurement type is "total-consumption" or "net-consumption", and nothing for any other tag. |
| Mapping.ProductionFamily | pkg/envoy_collector.go:81 | definition: the switch head on the production section's type, giving the inverter family for "inverters", the eim family for "eim", and no family for any other tag. |
| Mapping.ConsumptionFamily | pkg/envoy_collector.go:143 | definition: the switch head on the consumption section's measurement type, giving the total-consumption family for "total-consumption", the net-consumption family for "net-consumption", and no family for any other tag. |
| Mapping.Batch | pkg/envoy_collector.go:80-140 | definition: the metrics of a section list, section after section, in list order. Each section contributes what `emit` gives for it. |
| Mapping.ReportMetrics | pkg/envoy_collector.go:80-228 | definition: one successful scrape's batch, the batch of the production sections followed by the batch of the consumption sections. |
| Mapping.ProductionByTag | pkg/envoy_collector.go:81-139 | Loop proof step for `Collect`: the switch on the production section's type picks the "inverters" emission, else the "eim" emission, else nothing. |
| Mapping.ConsumptionByTag | pkg/envoy_collector.go:143-227 | Loop proof step for `Collect`: the switch on the consumption section's measurement type picks "total-consumption", else "net-consumption", else nothing. |
| Mapping.BatchAppend | pkg/envoy_collector.go:80-140 | Sections contribute independently: the batch of two concatenated section lists is the concatenation of their batches. |
| Mapping.BatchExtend | pkg/envoy_collector.go:80-140 | Loop proof step for `Collect`: handling one more section appends exactly that section's metrics to the batch so far. |
| Mapping.ReportExtendConsumption | pkg/envoy_collector.go:142-228 | Loop proof step for `Collect`: handling one more consumption section, after all production sections, appends exactly that section's metrics to the scrape's batch. |
| Mapping.BatchAt | pkg/envoy_collector.go:80-140 | Section i's metrics sit in the batch between those of the sections before it and those of the sections after it. |
| Mapping.BatchDropSilent | pkg/envoy_collector.go:80-140 | Removing a section that emits nothing leaves the batch unchanged. |
| Mapping.BatchAll | pkg/envoy_collector.go:80-228 | A property that every section's emission has holds of every metric in the batch. |
| Mapping.ProductionBatchLength | pkg/envoy_collector.go:80-140 | The production part of the batch has 3 metrics per "inverters" section plus 8 per "eim" section. |
| Mapping.ConsumptionBatchLength | pkg/envoy_collector.go:142-228 | The consumption part of the batch has 8 metrics per "total-consumption" section plus 8 per "net-consumption" section. |
| Mapping.ReportMetricsLength | pkg/envoy_collector.go:80-228 | A successful scrape emits 3·#inverters + 8·#eim + 8·#total-consumption + 8·#net-consumption metrics. |
| Mapping.UnknownProductionSectionIgnored | pkg/envoy_collector.go:80-140 | A production section with an unknown type contributes nothing: dropping it from the report leaves the whole batch unchanged, so its siblings' metrics are unaffected. |
| Mapping.UnknownConsumptionSectionIgnored | pkg/envoy_collector.go:142-228 | The same holds for a consumption section with an unknown measurement type. |
| Mapping.ProductionBeforeConsumption | pkg/envoy_collector.go:80-228 | In a scrape's batch, every production-family metric comes before every consumption-family metric. |
| Mapping.ConformsDistinctNames | pkg/envoy_collector.go:12-41 | No section's emission uses the same metric name twice. |
| Mapping.MetricsAgreeWithNames | pkg/envoy_collector.go:83-226 | Every metric of a scrape is a counter exactly when its name ends in "_watthours" or "_watthours_today", and a gauge otherwise. Its name reads as its descriptor's family and field. |
| Mapping.MetricsCarrySectionFields | pkg/envoy_collector.go:80-228 | Every metric of a scrape carries, unchanged, the field its descriptor reads of some section of the report. That section is a production section whose type tag selects the metric's family, or a consumption section whose measurement type does. |
| Mapping.BatchFrom | pkg/envoy_collector.go:80-228 | When each section's metrics stand in a relation to that section, every metric of the batch stands in it to some section of the list. |
| Mapping.ConformsCarries | pkg/envoy_collector.go:83-226 | A metric of a section's emission belongs to the emission's family and carries the section field its descriptor reads. |
| Mapping.InverterScrapeExample | pkg/envoy_collector.go:80-97 | A report with one "inverters" section (12, 50000, 3000) and one unknown section scrapes to exactly envoy_active_panel_count = 12, envoy_production_inverter_watthours = 50000 and envoy_production_inverter_watts = 3000, in that order. |
| Descriptors.Desc.Name | pkg/envoy_collector.go:12-41 | definition: each descriptor's metric name, the literal it is created with. |
| Descriptors.Desc.Help | pkg/envoy_collector.go:12-41 | definition: each descriptor's help text, the literal it is created with (empty for the rms, reactive, apparent and power-factor descriptors). |
| Descriptors.FamilyFieldsDistinct | pkg/envoy_collector.go:82-226 | No emission reads the same report field twice. |
| Descriptors.NamesUnique | pkg/envoy_collector.go:12-41 | A metric name reads as at most one (family, field) pair. |
| Descriptors.FamilyFromName | pkg/envoy_collector.go:12-41 | Apart from the panel count, a name's family is fixed by its "production"/"consumption" word and the "inverter_"/"grid_" infix. |
| Descriptors.PanelCountOnly | pkg/envoy_collector.go:12-41 | Only "envoy_active_panel_count" reads as the panel count, and that name belongs to the inverter family. |
| Descriptors.DescriptorNamesAgree | pkg/envoy_collector.go:12-41 | Each of the 27 descriptors' names reads as the family and the field the table assigns to it. Its name calls for the value type of that field. |
| Descriptors.TableInjective | pkg/envoy_collector.go:12-41 | No two descriptors share a family and a field. |
| Descriptors.DescriptorNamesDistinct | pkg/envoy_collector.go:12-41 | Distinct descriptors have distinct metric names. |
| Collector.NewClientWithHTTP | pkg/envoy_collector.go:68 | definition: a new client bound to the given target and scheme, with no token set yet. |
| Collector.Package.constructor | pkg/envoy_collector.go:43 | At program start there is no client. |
| Collector.EnvoyCollector.constructor | pkg/envoy_collector.go:51-56 | A new collector keeps exactly the given target and token. |
| Collector.EnvoyCollector.Describe | pkg/envoy_collector.go:58-60 | Describe announces no descriptors. |
| Collector.EnvoyCollector.Collect | pkg/envoy_collector.go:62-229 | See the list below the table. |
| Collector.ScrapeInTurn | pkg/envoy_collector.go:66-78 | Two collectors scrape a fresh process in turn. Exactly one client is created, bound to the first collector's target and token. The second scrape goes through that client and emits the same batch as the first. |

`Collector.EnvoyCollector.Collect` states:

- **No client yet.** Exactly one client is created, for this collector's target, over "https". It carries the token only when the token is non-empty.
- **Client already there.** The existing client is kept unchanged whatever this collector's target and token are.
- **Fetch failed.** The scrape emits nothing, and the client stays set.
- **Fetch succeeded.** The scrape emits exactly `ReportMetrics` of the fetched report.

## Left out

- The HTTP transport and its TLS settings (certificate validation off) are not modelled. They only configure a foreign library.
- The device request and its JSON decoding are a function parameter. This is network I/O inside a library that is not part of this model.
- Of the Prometheus descriptors and constant metrics, only each descriptor's name and help text, and each metric's descriptor, value type and value, are modelled. The label sets are nil throughout.
- The `float64` conversion of field values is not modelled. Values are integers, copied through.
- The `log.Printf` calls are not modelled. They are diagnostics with no effect on the output.
- The Go channel is a returned sequence. Blocking, and the host framework reading the channel concurrently, are not modelled.
- Concurrent scrapes and the race on the unguarded package-level client are not modelled. Scrapes are taken one at a time.
- A lock around client creation and a fetch timeout are not modelled, because the code has neither.
- `cmd/prometheus-envoy/prometheus-envoy.go` is not part of this model. It is command-line flag parsing and HTTP hosting glue, and passes the token through unchanged.
- The "net-consumption" watt-hours-today metric copies the section's watt-hours-today field exactly as the "total-consumption" branch does (pkg/envoy_collector.go:150-154). Why that value reads 0 is outside this model.
