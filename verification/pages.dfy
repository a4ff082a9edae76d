/**
 * The list-and-form GET handlers: which form a page shows (`"Update"` with
 * the record named by the `id` query parameter, or a blank one), and the
 * read-failure policy that renders the page with empty collections and
 * the error flag set instead of failing.
 */
module Pages {
  import opened Common
  import opened Chart

  datatype Page = Clinics | Appointments | Patients | Statuses | Tests | Results | ScheduledTests

  /** `if id:` on `request.args.get("id")`: the parameter is present and not empty. */
  predicate HasId(id: Option<string>) {
    id.Some? && id.value != ""
  }

  /** Statuses and results can only be edited, never added, so their blank form has no action. */
  predicate EditOnly(page: Page) {
    page == Statuses || page == Results
  }

  /** The form mode a page renders with when nothing fails. */
  function FormAction(page: Page, id: Option<string>): (action: string)
    ensures action == "Update" <==> HasId(id)
    ensures !HasId(id) && EditOnly(page) ==> action == ""
    ensures !HasId(id) && !EditOnly(page) ==> action == "Add"
  {
    if HasId(id) then "Update" else if EditOnly(page) then "" else "Add"
  }

  /**
   * A list page as rendered. `listing` is `None` when a query fails; when
   * an id is given, `matches` are the rows its lookup returns, of which
   * the first fills the form (none at all raises `IndexError`).
   */
  datatype ListView<L, R> = ListView(rows: seq<L>, action: string, record: Option<R>, error: bool)

  function ListPage<L, R>(page: Page, listing: Option<seq<L>>, id: Option<string>, matches: seq<R>): (v: ListView<L, R>)
    ensures v.error <==> listing.None? || (HasId(id) && matches == [])
    ensures v.error ==> v.rows == [] && v.action == "" && v.record.None?
    ensures !v.error ==> v.rows == listing.value && v.action == FormAction(page, id)
    ensures !v.error ==> (v.record.Some? <==> HasId(id)) && (v.record.Some? ==> v.record.value == matches[0])
  {
    if listing.None? || (HasId(id) && matches == []) then ListView([], "", None, true)
    else if HasId(id) then ListView(listing.value, "Update", Some(matches[0]), false)
    else ListView(listing.value, FormAction(page, id), None, false)
  }

  /** The scheduled-tests page: its list, the test catalog, the form, and the chart. */
  datatype ScheduledView<R> = ScheduledView(
    rows: seq<string>, catalog: seq<string>, action: string, record: Option<R>,
    chart: Option<ChartData>, error: bool)

  /**
   * `rows` holds the "Test Name" column of the scheduled-tests report, or
   * `None` when the queries fail. A failed lookup or a row whose test is
   * outside the catalog also renders the error page, which carries no
   * chart at all.
   */
  method ScheduledTestsPage<R>(rows: Option<seq<string>>, catalog: seq<string>, id: Option<string>, matches: seq<R>)
    returns (v: ScheduledView<R>)
    ensures v.error <==> (|| rows.None?
                          || (HasId(id) && matches == [])
                          || exists i :: 0 <= i < |rows.value| && rows.value[i] !in catalog)
    ensures v.error ==> v == ScheduledView([], [], "", None, None, true)
    ensures !v.error ==> v.rows == rows.value && v.catalog == catalog && v.action == FormAction(ScheduledTests, id)
    ensures !v.error ==> (v.record.Some? <==> HasId(id)) && (v.record.Some? ==> v.record.value == matches[0])
    ensures !v.error ==> v.chart.Some? && v.chart.value.labels == catalog
                         && v.chart.value.data == CountsOf(FirstOccurrences(catalog), rows.value)
                         && Sum(v.chart.value.data) == |rows.value|
  {
    var failed := ScheduledView([], [], "", None, None, true);
    if rows.None? || (HasId(id) && matches == []) {
      return failed;
    }
    var action := FormAction(ScheduledTests, id);
    var record: Option<R> := if HasId(id) then Some(matches[0]) else None;
    var chart := CountScheduledTests(catalog, rows.value);
    if chart.Failure? {
      return failed;
    }
    return ScheduledView(rows.value, catalog, action, record, Some(chart.value), false);
  }
}
