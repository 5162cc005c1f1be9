/** The collector: the package-wide device client, created lazily by the
    first scrape, and the scrape that turns one fetched report into a batch
    of metrics. */
module Collector {
  import opened Report
  import opened Descriptors
  import opened Mapping

  /** The device client: the target it is bound to, the scheme it talks
      over, and the bearer token attached to its requests, if any. */
  datatype Client = Client(target: string, scheme: string, token: Option<string>)

  /** A new client for `target` over `scheme`, with no token set yet. */
  function NewClientWithHTTP(target: string, scheme: string): Client {
    Client(target, scheme, None)
  }

  /** The package-level state shared by every collector of the process:
      the one device client, absent until a scrape creates it. `created`
      counts the clients ever created. */
  class Package {
    var client: Option<Client>
    ghost var created: nat

    ghost predicate Valid()
      reads this
    {
      (client == None && created == 0) || (client.Some? && created == 1)
    }

    /** Program start: no client yet. */
    constructor ()
      ensures Valid() && client == None
    {
      client := None;
      created := 0;
    }
  }

  /** A collector bound to one device target and one token. */
  class EnvoyCollector {
    const target: string
    const token: string

    constructor (target: string, token: string)
      ensures this.target == target && this.token == token
    {
      this.target := target;
      this.token := token;
    }

    /** Announces no descriptors: the collector is an unchecked one. */
    method Describe() returns (descs: seq<Desc>)
      ensures descs == []
    {
      descs := [];
    }

    /** One scrape. Creates the shared client if there is none yet, bound
        to this collector's target and carrying its token when that is not
        empty; a client that already exists is kept whatever it is bound
        to. A failed fetch ends the scrape with no metrics; otherwise every
        production section's metrics are emitted, then every consumption
        section's, each section in report order. */
    method Collect(pkg: Package, fetch: Client -> FetchResult) returns (metrics: seq<Metric>)
      requires pkg.Valid()
      modifies pkg
      ensures pkg.Valid() && pkg.client.Some?
      ensures old(pkg.client).Some? ==> pkg.client == old(pkg.client) && pkg.created == old(pkg.created)
      ensures old(pkg.client).None? ==>
        pkg.client == Some(Client(target, "https", if token == "" then None else Some(token)))
      ensures fetch(pkg.client.value).FetchFailed? ==> metrics == []
      ensures fetch(pkg.client.value).Fetched? ==> metrics == ReportMetrics(fetch(pkg.client.value).report)
    {
      if pkg.client == None {
        var c := NewClientWithHTTP(target, "https");
        if token != "" {
          c := c.(token := Some(token));
        }
        pkg.client := Some(c);
        pkg.created := pkg.created + 1;
      }

      var fetched := fetch(pkg.client.value);
      if fetched.FetchFailed? {
        return [];
      }
      var report := fetched.report;

      metrics := [];
      var i := 0;
      while i < |report.production|
        modifies {}
        invariant i <= |report.production|
        invariant metrics == Batch(report.production[..i], ProductionMetrics)
      {
        var section := report.production[i];
        var emitted: seq<Metric> := [];
        if section.sectionType == "inverters" {
          emitted := InverterMetrics(section);
        } else if section.sectionType == "eim" {
          emitted := EimMetrics(section);
        }
        ProductionByTag(section);
        metrics := metrics + emitted;
        BatchExtend(report.production, i, ProductionMetrics);
        i := i + 1;
      }
      assert report.production[..i] == report.production;

      assert report.consumption[..0] == [];
      var j := 0;
      while j < |report.consumption|
        modifies {}
        invariant j <= |report.consumption|
        invariant metrics == ReportMetrics(report.(consumption := report.consumption[..j]))
      {
        var section := report.consumption[j];
        var emitted: seq<Metric> := [];
        if section.measurementType == "total-consumption" {
          emitted := TotalConsumptionMetrics(section);
        } else if section.measurementType == "net-consumption" {
          emitted := NetConsumptionMetrics(section);
        }
        ConsumptionByTag(section);
        metrics := metrics + emitted;
        ReportExtendConsumption(report, j);
        j := j + 1;
      }
      assert report.(consumption := report.consumption[..j]) == report;
    }
  }

  /** Two collectors scraping one fresh process in turn: the first creates
      the only client, bound to its own target and token, and the second
      scrapes through that same client, so with the device unchanged both
      scrapes emit the same batch. */
  method ScrapeInTurn(pkg: Package, first: EnvoyCollector, second: EnvoyCollector, fetch: Client -> FetchResult)
    returns (a: seq<Metric>, b: seq<Metric>)
    requires pkg.Valid() && pkg.client == None
    modifies pkg
    ensures pkg.Valid() && pkg.created == 1
    ensures pkg.client == Some(Client(first.target, "https", if first.token == "" then None else Some(first.token)))
    ensures a == b
  {
    a := first.Collect(pkg, fetch);
    b := second.Collect(pkg, fetch);
  }
}
