/** The legacy generation of the `cisco_ucm_services` check: one service
    for all UCM services, with a tally of states, an overall flag and one
    line per service. */
module LegacyUcmServices {
  import opened PyBase
  import opened CheckmkApi

  /** The parsed section dictionary. */
  datatype LegacySection = LegacySection(
    numStartedServices: nat,
    allServicesOk: bool,
    serviceState: seq<(State, string)>)

  /** A row is bad when its status is not "Started" and its reason is not
      "Service Not Activated" (both compared exactly). */
  predicate IsBad(status: string, reasonStr: string) {
    status != "Started" && reasonStr != "Service Not Activated"
  }

  /** `"name: status"`, followed by `" (reason)"` when there is a reason. */
  function EntryText(name: string, status: string, reasonStr: string): string {
    name + ": " + status + (if reasonStr != "" then " (" + reasonStr + ")" else "")
  }

  /** The `service_state` entry of one row. */
  function Entry(row: seq<string>): (State, string)
    requires |row| == 4
  {
    (if IsBad(row[1], row[3]) then CRIT else OK, EntryText(row[0], row[1], row[3]))
  }

  /** The number of rows whose status is exactly `status`. */
  function CountStatus(rows: StringTable, status: string): nat
    requires RowsOfWidth(rows, 4)
  {
    if rows == [] then 0
    else CountStatus(rows[..|rows| - 1], status) + (if rows[|rows| - 1][1] == status then 1 else 0)
  }

  /** The `by_state` dictionary after the given rows. */
  function Tally(rows: StringTable): map<string, nat>
    requires RowsOfWidth(rows, 4)
  {
    if rows == [] then map[]
    else
      var before := Tally(rows[..|rows| - 1]);
      var status := rows[|rows| - 1][1];
      before[status := (if status in before then before[status] else 0) + 1]
  }

  /** `parse_cisco_ucm_services`: None for no rows, ValueError for a row
      that is not four fields wide, and otherwise the section. */
  method ParseCiscoUcmServices(table: StringTable) returns (r: Try<Option<LegacySection>>)
    ensures r == Return(None) <==> table == []
    ensures r.Raise? <==> !RowsOfWidth(table, 4)
    ensures r.Raise? ==> r.error.ValueError?
    ensures r.Return? && r.value.Some? ==>
      var section := r.value.value;
      && section.numStartedServices == CountStatus(table, "Started")
      && |section.serviceState| == |table|
      && (forall i :: 0 <= i < |table| ==> section.serviceState[i] == Entry(table[i]))
      && (section.allServicesOk <==> forall i :: 0 <= i < |table| ==> !IsBad(table[i][1], table[i][3]))
  {
    if table == [] {
      return Return(None);
    }

    var byState: map<string, nat> := map[];
    var allServicesOk := true;
    var svcState: seq<(State, string)> := [];
    var i := 0;
    while i < |table|
      invariant 0 <= i <= |table|
      invariant RowsOfWidth(table[..i], 4)
      invariant byState == Tally(table[..i])
      invariant |svcState| == i
      invariant forall j :: 0 <= j < i ==> svcState[j] == Entry(table[j])
      invariant allServicesOk <==> forall j :: 0 <= j < i ==> !IsBad(table[j][1], table[j][3])
    {
      var row := table[i];
      if |row| != 4 {
        return Raise(UnpackError(|row|, 4));
      }
      var name, status, reasonStr := row[0], row[1], row[3];
      assert table[..i + 1][..i] == table[..i];
      byState := if status in byState then byState else byState[status := 0];
      byState := byState[status := byState[status] + 1];
      var s := name + ": " + status;
      if reasonStr != "" {
        s := s + " (" + reasonStr + ")";
      }
      assert s == EntryText(name, status, reasonStr);
      assert (if IsBad(status, reasonStr) then CRIT else OK, s) == Entry(row);
      if status != "Started" && reasonStr != "Service Not Activated" {
        svcState := svcState + [(CRIT, s)];
        allServicesOk := false;
      } else {
        svcState := svcState + [(OK, s)];
      }
      i := i + 1;
    }
    assert table[..i] == table;

    TallyCounts(table, "Started");
    var numStarted := if "Started" in byState then byState["Started"] else 0;
    r := Return(Some(LegacySection(numStarted, allServicesOk, svcState)));
  }

  /** Each entry of the tally is the number of rows with that status, and
      the tally holds exactly the statuses that occur. */
  lemma {:induction false} TallyCounts(rows: StringTable, status: string)
    requires RowsOfWidth(rows, 4)
    ensures status in Tally(rows) <==> CountStatus(rows, status) > 0
    ensures (if status in Tally(rows) then Tally(rows)[status] else 0) == CountStatus(rows, status)
  {
    if rows != [] {
      TallyCounts(rows[..|rows| - 1], status);
    }
  }

  // ----- the tally's counts add up to the number of rows -----

  ghost function PickKey(m: map<string, nat>): string
    requires |m| > 0
  {
    var k :| k in m; k
  }

  /** The sum of a map's values. */
  ghost function MapSum(m: map<string, nat>): nat
    decreases |m|
  {
    if |m| == 0 then 0
    else
      var k := PickKey(m);
      m[k] + MapSum(m - {k})
  }

  lemma MapSumRemove(m: map<string, nat>, k: string)
    requires k in m
    ensures MapSum(m) == m[k] + MapSum(m - {k})
    decreases |m|
  {
    var j := PickKey(m);
    if j != k {
      MapSumRemove(m - {j}, k);
      MapSumRemove(m - {k}, j);
      assert m - {j} - {k} == m - {k} - {j};
    }
  }

  lemma MapSumUpdate(m: map<string, nat>, k: string, v: nat)
    ensures MapSum(m[k := v]) + (if k in m then m[k] else 0) == MapSum(m) + v
  {
    MapSumRemove(m[k := v], k);
    assert m[k := v] - {k} == m - {k};
    if k in m {
      MapSumRemove(m, k);
    } else {
      assert m - {k} == m;
    }
  }

  /** The counts of `by_state` add up to the number of rows. */
  lemma {:induction false} TallySum(rows: StringTable)
    requires RowsOfWidth(rows, 4)
    ensures MapSum(Tally(rows)) == |rows|
  {
    if rows != [] {
      var before := Tally(rows[..|rows| - 1]);
      var status := rows[|rows| - 1][1];
      TallySum(rows[..|rows| - 1]);
      MapSumUpdate(before, status, (if status in before then before[status] else 0) + 1);
    }
  }

  // ----- discovery and check -----

  /** `discover_cisco_ucm_services`: one service without an item when some
      service is started. */
  function DiscoverCiscoUcmServices(section: LegacySection): (r: seq<Service>)
    ensures |r| <= 1 && (|r| == 1 <==> section.numStartedServices != 0)
    ensures forall k :: 0 <= k < |r| ==> r[k].item.None?
  {
    if section.numStartedServices != 0 then [Service(None)] else []
  }

  /** For a parsed section, the service is discovered exactly when some row's
      status is exactly "Started". */
  lemma {:induction false} DiscoveredIffStartedRow(table: StringTable, section: LegacySection)
    requires RowsOfWidth(table, 4)
    requires section.numStartedServices == CountStatus(table, "Started")
    ensures DiscoverCiscoUcmServices(section) != [] <==> exists i :: 0 <= i < |table| && table[i][1] == "Started"
  {
    if table != [] {
      var init := table[..|table| - 1];
      DiscoveredIffStartedRow(init, section.(numStartedServices := CountStatus(init, "Started")));
      if exists i :: 0 <= i < |init| && init[i][1] == "Started" {
        var i :| 0 <= i < |init| && init[i][1] == "Started";
        assert table[i][1] == "Started";
      }
    }
  }

  /** `check_cisco_ucm_services`: the overall result, then one notice per
      entry of `service_state`. */
  function CheckCiscoUcmServices(section: LegacySection): (r: seq<Result>)
    ensures |r| == 1 + |section.serviceState|
    ensures r[0] == if section.allServicesOk then Result(OK, Summary("All services are OK"), None)
      else Result(CRIT, Summary("Some services are in bad state"), None)
    ensures forall i :: 0 <= i < |section.serviceState| ==>
      r[i + 1] == Result(section.serviceState[i].0, Notice(section.serviceState[i].1), None)
  {
    (if section.allServicesOk then [Result(OK, Summary("All services are OK"), None)]
     else [Result(CRIT, Summary("Some services are in bad state"), None)])
    + seq(|section.serviceState|, i requires 0 <= i < |section.serviceState| =>
        Result(section.serviceState[i].0, Notice(section.serviceState[i].1), None))
  }

  /** The entry of a row is CRIT exactly when the row is bad, and its text
      is `"name: status"` with the reason in parentheses when there is one. */
  lemma EntryShape(row: seq<string>)
    requires |row| == 4
    ensures Entry(row).0 == CRIT <==> row[1] != "Started" && row[3] != "Service Not Activated"
    ensures Entry(row).0 != CRIT ==> Entry(row).0 == OK
    ensures var prefix := row[0] + ": " + row[1];
      |Entry(row).1| >= |prefix| && Entry(row).1[..|prefix|] == prefix
      && (Entry(row).1 == prefix <==> row[3] == "")
  {
    var prefix := row[0] + ": " + row[1];
    if row[3] != "" {
      assert |Entry(row).1| > |prefix|;
    }
  }
}
