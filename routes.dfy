/** The fixed recipient-to-path table and its first-match lookup. */
module Routes {
  import opened Wrappers
  import opened Http

  datatype Route = Route(recipient: string, url: string)

  /** The compiled routing table, in its declared order. */
  const Table: seq<Route> := [
    Route("sclead@aiaparse.indiveloper.com", "/backend/extract-lead"),
    Route("owlhome@aiaparse.indiveloper.com", "/backend/log-inbound-email"),
    Route("sclead@rndrparse.indiveloper.com", "/backend/extract-lead"),
    Route("sclead@flyparse.indiveloper.com", "/backend/extract-lead"),
    Route("test@aiaparse.indiveloper.com", "/backend/test-endpoint")
  ]

  /** `r.recipient === to`: strict equality, so an undefined `to` matches nothing. */
  predicate Matches(r: Route, to: Option<string>) {
    to == Some(r.recipient)
  }

  /** Entry `i` matches and no earlier entry does. */
  predicate IsFirstMatch(table: seq<Route>, i: int, to: Option<string>) {
    0 <= i < |table| && Matches(table[i], to) && forall j :: 0 <= j < i ==> !Matches(table[j], to)
  }

  /** `table.find(r => r.recipient === to)`. */
  function Find(table: seq<Route>, to: Option<string>): (r: Option<Route>)
    ensures r.None? <==> forall i :: 0 <= i < |table| ==> !Matches(table[i], to)
    ensures r.Some? ==> exists i :: IsFirstMatch(table, i, to) && table[i] == r.value
  {
    if table == [] then None
    else if Matches(table[0], to) then
      assert IsFirstMatch(table, 0, to);
      Some(table[0])
    else
      var rest := Find(table[1..], to);
      assert forall i :: 1 <= i < |table| ==> table[i] == table[1..][i - 1];
      if rest.Some? then
        var k :| IsFirstMatch(table[1..], k, to) && table[1..][k] == rest.value;
        assert IsFirstMatch(table, k + 1, to);
        rest
      else
        rest
  }

  /** A table whose paths are all non-empty and whose recipients are pairwise distinct. */
  predicate WellFormed(table: seq<Route>) {
    && (forall i :: 0 <= i < |table| ==> table[i].url != "")
    && (forall i, j :: 0 <= i < j < |table| ==> table[i].recipient != table[j].recipient)
  }

  lemma TableWellFormed()
    ensures WellFormed(Table)
  {
  }

  /** With distinct recipients, the first match is the only match. */
  lemma FindUniqueMatch(table: seq<Route>, i: int, to: Option<string>)
    requires WellFormed(table)
    requires 0 <= i < |table| && Matches(table[i], to)
    ensures Find(table, to) == Some(table[i])
  {
    var r := Find(table, to);
    var k :| IsFirstMatch(table, k, to) && table[k] == r.value;
    assert k == i;
  }

  /** The `{recipient, url}` object of one route. */
  function RouteJson(r: Route): Json {
    Obj(map["recipient" := Str(r.recipient), "url" := Str(r.url)])
  }

  /** The table as the JSON array `routes`, entry for entry in table order. */
  function TableJson(table: seq<Route>): (j: Json)
    ensures j.Arr? && |j.items| == |table|
    ensures forall i :: 0 <= i < |table| ==> j.items[i] == RouteJson(table[i])
  {
    Arr(seq(|table|, i requires 0 <= i < |table| => RouteJson(table[i])))
  }
}
