/**
 The handler runs its five sections strictly one after another, but no
 section reads a field another one writes. This module proves that running
 the sections in any order yields the same report, so running them as
 independent tasks joined at the end would not change the response.
 */
module SectionOrder {
  import opened ScanRoute

  predicate Distinct(order: seq<Section>) {
    forall i, j :: 0 <= i < j < |order| ==> order[i] != order[j]
  }

  /** One section updates its own field and copies the other four. */
  lemma RunSectionFieldwise(r: ScanResult, s: Section, obs: Observations)
    requires WellFormed(obs)
    ensures RunSection(r, s, obs) == ScanResult(
      if s == TlsCheck then SslAfter(r.sslValid, obs) else r.sslValid,
      if s == XssCheck then XssAfter(r.xssVulnerable, obs) else r.xssVulnerable,
      if s == SqlCheck then SqlAfter(r.sqlInjectionVulnerable, obs) else r.sqlInjectionVulnerable,
      if s == HeaderCheck then HeadersAfter(r.missingHeaders, obs) else r.missingHeaders,
      if s == PortCheck then PortsAfter(r.openPorts, obs) else r.openPorts)
  {
  }

  /** Each section reaches only its own field: after a run of distinct
      sections, a field has been updated iff its section was among them. */
  lemma {:induction false} SectionsFieldwise(r: ScanResult, order: seq<Section>, obs: Observations)
    requires WellFormed(obs) && Distinct(order)
    ensures RunSections(r, order, obs) == ScanResult(
      if TlsCheck in order then SslAfter(r.sslValid, obs) else r.sslValid,
      if XssCheck in order then XssAfter(r.xssVulnerable, obs) else r.xssVulnerable,
      if SqlCheck in order then SqlAfter(r.sqlInjectionVulnerable, obs) else r.sqlInjectionVulnerable,
      if HeaderCheck in order then HeadersAfter(r.missingHeaders, obs) else r.missingHeaders,
      if PortCheck in order then PortsAfter(r.openPorts, obs) else r.openPorts)
    decreases |order|
  {
    if |order| > 0 {
      var s := order[0];
      var rest := order[1..];
      assert Distinct(rest) by {
        forall i, j | 0 <= i < j < |rest| ensures rest[i] != rest[j] {
          assert rest[i] == order[i + 1] && rest[j] == order[j + 1];
        }
      }
      assert s !in rest by {
        forall k | 0 <= k < |rest| ensures rest[k] != s {
          assert rest[k] == order[k + 1];
        }
      }
      assert forall x :: x in order <==> x == s || x in rest by {
        assert order == [s] + rest;
      }
      var r' := RunSection(r, s, obs);
      RunSectionFieldwise(r, s, obs);
      SectionsFieldwise(r', rest, obs);
      assert RunSections(r, order, obs) == RunSections(r', rest, obs);
    }
  }

  /** Any permutation of the five sections produces the handler's report. */
  lemma OrderIndependent(order: seq<Section>, obs: Observations)
    requires WellFormed(obs) && Distinct(order)
    requires forall s: Section :: s in order
    ensures RunSections(InitialReport, order, obs) == RunSections(InitialReport, RouteOrder, obs)
  {
    assert TlsCheck in order && XssCheck in order && SqlCheck in order;
    assert HeaderCheck in order && PortCheck in order;
    assert Distinct(RouteOrder) by {
      forall i, j | 0 <= i < j < |RouteOrder| ensures RouteOrder[i] != RouteOrder[j] {
      }
    }
    assert RouteOrder[0] == TlsCheck && RouteOrder[1] == XssCheck && RouteOrder[2] == SqlCheck;
    assert RouteOrder[3] == HeaderCheck && RouteOrder[4] == PortCheck;
    SectionsFieldwise(InitialReport, order, obs);
    SectionsFieldwise(InitialReport, RouteOrder, obs);
  }
}
