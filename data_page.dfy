/** The log page: rows fetched once and sorted newest first, a fixed sample list used
    when the fetch fails, and client-side pages of 10 rows. */
module DataPage {
  import opened Wrappers
  import opened Seqs

  /** One decision record of the microgrid controller. Timestamps are abstract
      integers, in hours since 2025-12-16T00:00Z. */
  datatype LogRow = LogRow(
    id: int,
    timestamp: int,
    solarAc: Option<real>,
    windAc: Option<real>,
    load: Option<real>,
    soc: real,
    action: string,
    reward: Option<real>)

  /** What `fetch` resolves to: the `ok` flag and the parsed JSON rows. */
  datatype Response = Response(ok: bool, rows: seq<LogRow>)

  const RowsPerPage: nat := 10
  const NotOkMessage: string := "Не удалось загрузить данные"

  /** The comparator `(a, b) => b.timestamp - a.timestamp` as a sort key. */
  function TimeDescKey(r: LogRow): int
  {
    -r.timestamp
  }

  /** Timestamps never increase along the list. */
  ghost predicate NewestFirstOrder(rows: seq<LogRow>)
  {
    forall i, j :: 0 <= i < j < |rows| ==> rows[i].timestamp >= rows[j].timestamp
  }

  /** `rows.sort((a, b) => new Date(b.timestamp) - new Date(a.timestamp))`. */
  function SortNewestFirst(rows: seq<LogRow>): (r: seq<LogRow>)
    ensures multiset(r) == multiset(rows)
    ensures NewestFirstOrder(r)
  {
    var r := SortBy(rows, TimeDescKey);
    assert forall i, j :: 0 <= i < j < |r| ==> TimeDescKey(r[i]) <= TimeDescKey(r[j]);
    r
  }

  /** The `Math.random()` values behind one generated sample row, each in [0, 1). */
  datatype Draw = Draw(solar: real, wind: real, load: real, soc: real, action: real, reward: real)

  predicate RandomDraw(d: Draw)
  {
    && 0.0 <= d.solar < 1.0 && 0.0 <= d.wind < 1.0 && 0.0 <= d.load < 1.0
    && 0.0 <= d.soc < 1.0 && 0.0 <= d.action < 1.0 && 0.0 <= d.reward < 1.0
  }

  const SampleActions: seq<string> := ["charge", "discharge", "idle"]

  /** The `i`-th generated sample row (ids from 4, hours 07 down to 00, repeating). */
  function GeneratedRow(i: nat, d: Draw): (r: LogRow)
    requires RandomDraw(d)
    ensures r.id == i + 4 && r.timestamp == 7 - i % 8
    ensures r.action in SampleActions
    ensures 0.3 <= r.soc < 0.9
  {
    var k := (d.action * 3.0).Floor;
    assert 0 <= k < 3;
    LogRow(i + 4, 7 - i % 8, Some(d.solar * 6.0 + 0.5), Some(d.wind * 12.0 + 2.0),
           Some(d.load * 15.0 + 5.0), d.soc * 0.6 + 0.3, SampleActions[k], Some(d.reward * 2.0 - 0.5))
  }

  function FixedRows(): seq<LogRow>
  {
    [ LogRow(1, 10, Some(4.82), Some(8.15), Some(10.2), 0.78, "discharge", Some(0.92)),
      LogRow(2, 9, Some(3.21), Some(7.90), Some(9.8), 0.82, "charge", Some(-0.15)),
      LogRow(3, 8, Some(1.10), Some(9.45), Some(11.5), 0.75, "discharge", Some(0.88)) ]
  }

  /** The 27 rows of `Array.from({ length: 27 }, ...)`. */
  function GeneratedRows(draw: nat -> Draw): (g: seq<LogRow>)
    requires forall i :: 0 <= i < 27 ==> RandomDraw(draw(i))
    ensures |g| == 27
    ensures forall i :: 0 <= i < 27 ==>
              g[i].id == i + 4 && g[i].timestamp == 7 - i % 8 && g[i].action in SampleActions
              && 0.3 <= g[i].soc < 0.9
  {
    var g := seq(27, i requires 0 <= i < 27 => GeneratedRow(i, draw(i)));
    assert forall i :: 0 <= i < 27 ==> g[i] == GeneratedRow(i, draw(i));
    g
  }

  /** `mockLogs`: three fixed rows and 27 generated ones, sorted newest first.
      `draw(i)` supplies the random values of the `i`-th generated row. */
  function MockLogs(draw: nat -> Draw): (r: seq<LogRow>)
    requires forall i :: 0 <= i < 27 ==> RandomDraw(draw(i))
    ensures |r| == 30
    ensures NewestFirstOrder(r)
    ensures forall k :: 0 <= k < 3 ==> FixedRows()[k] in r
  {
    var all := FixedRows() + GeneratedRows(draw);
    SortedKeepsRows(all);
    assert forall k :: 0 <= k < 3 ==> FixedRows()[k] == all[k];
    SortNewestFirst(all)
  }

  /** Sorting keeps the number of rows and every row. */
  lemma SortedKeepsRows(rows: seq<LogRow>)
    ensures |SortNewestFirst(rows)| == |rows|
    ensures forall k :: 0 <= k < |rows| ==> rows[k] in SortNewestFirst(rows)
  {
    var r := SortNewestFirst(rows);
    assert |multiset(r)| == |multiset(rows)|;
    forall k | 0 <= k < |rows| ensures rows[k] in r {
      assert rows[k] in multiset(rows);
    }
  }

  /** `Math.ceil(n / rowsPerPage)`: the fewest pages of 10 that hold `n` rows, which is 0
      for no rows. */
  function TotalPages(n: nat): (t: nat)
    ensures t * RowsPerPage >= n
    ensures t == 0 || (t - 1) * RowsPerPage < n
  {
    (n + RowsPerPage - 1) / RowsPerPage
  }

  /** The pager is shown exactly when there are more than 10 rows. */
  lemma PagerShownIffMoreThanOnePage(n: nat)
    ensures TotalPages(n) > 1 <==> n > RowsPerPage
  {
  }

  /** `data.slice((page - 1) * rowsPerPage, page * rowsPerPage)`. */
  function CurrentData(data: seq<LogRow>, page: int): (r: seq<LogRow>)
    ensures |r| <= RowsPerPage
    ensures page >= 1 ==>
              r == data[Min((page - 1) * RowsPerPage, |data|)..Min(page * RowsPerPage, |data|)]
  {
    Slice(data, (page - 1) * RowsPerPage, page * RowsPerPage)
  }

  /** Pages 1 to `k`, one after the other. */
  function PagesUpTo(data: seq<LogRow>, k: nat): seq<LogRow>
  {
    if k == 0 then [] else PagesUpTo(data, k - 1) + CurrentData(data, k)
  }

  lemma {:induction false} PagesUpToIsPrefix(data: seq<LogRow>, k: nat)
    ensures PagesUpTo(data, k) == data[..Min(k * RowsPerPage, |data|)]
  {
    if k > 0 {
      PagesUpToIsPrefix(data, k - 1);
      var a := Min((k - 1) * RowsPerPage, |data|);
      var b := Min(k * RowsPerPage, |data|);
      assert data[..a] + data[a..b] == data[..b];
    }
  }

  /** Pages 1 to `totalPages` together are the data, in order, with no row missing
      and none repeated. */
  lemma PagesReconstructData(data: seq<LogRow>)
    ensures PagesUpTo(data, TotalPages(|data|)) == data
  {
    PagesUpToIsPrefix(data, TotalPages(|data|));
    assert data[..|data|] == data;
  }

  /** `p => Math.min(p + 1, totalPages)`. */
  function NextPage(page: int, totalPages: nat): int
  {
    Min(page + 1, totalPages)
  }

  /** `p => Math.max(p - 1, 1)`. */
  function PrevPage(page: int): int
  {
    Max(page - 1, 1)
  }

  /** With at least one page, both buttons keep the page in [1, totalPages]; the first
      page is a fixed point of `prevPage` and the last one of `nextPage`. */
  lemma PagingStaysInRange(page: int, totalPages: nat)
    requires 1 <= page <= totalPages
    ensures 1 <= NextPage(page, totalPages) <= totalPages
    ensures 1 <= PrevPage(page) <= totalPages
    ensures NextPage(page, totalPages) == if page < totalPages then page + 1 else page
    ensures PrevPage(page) == if page > 1 then page - 1 else page
  {
  }

  /** `getActionBadge(action).text`. */
  function ActionLabel(action: string): (text: string)
    ensures action == "charge" ==> text == "Зарядка"
    ensures action == "discharge" ==> text == "Разрядка"
    ensures action == "idle" ==> text == "Ожидание"
    ensures action !in SampleActions ==> text == action
  {
    match action
    case "charge" => "Зарядка"
    case "discharge" => "Разрядка"
    case "idle" => "Ожидание"
    case _ => action
  }

  datatype RewardClass = Positive | Negative | Neutral

  /** `getRewardClass`: by the sign of the reward; a missing reward compares as neither
      above nor below 0. */
  function RewardClassOf(reward: Option<real>): (c: RewardClass)
    ensures c == Positive <==> reward.Some? && reward.value > 0.0
    ensures c == Negative <==> reward.Some? && reward.value < 0.0
    ensures c == Neutral <==> reward.None? || reward.value == 0.0
  {
    if reward.Some? && reward.value > 0.0 then Positive
    else if reward.Some? && reward.value < 0.0 then Negative
    else Neutral
  }

  /** The component state of the page. */
  class LogsPage {
    var data: seq<LogRow>
    var loading: bool
    var error: Option<string>
    var page: int

    /** The page number is at least 1 and, once there are rows, at most the last page;
        it is 1 while the rows are loading. */
    ghost predicate Valid()
      reads this
    {
      && 1 <= page <= Max(1, TotalPages(|data|))
      && (loading ==> page == 1)
    }

    constructor ()
      ensures Valid()
      ensures data == [] && loading && error == None && page == 1
    {
      data := [];
      loading := true;
      error := None;
      page := 1;
    }

    /** The mount effect: an `ok` response is sorted newest first and replaces the
        rows; a non-`ok` response or a failed request puts the sample rows in their
        place; loading ends in both cases. */
    method Load(response: Outcome<Response>, draw: nat -> Draw)
      requires Valid() && loading
      requires forall i :: 0 <= i < 27 ==> RandomDraw(draw(i))
      modifies this`data, this`loading, this`error
      ensures Valid() && !loading
      ensures response.Success? && response.data.ok ==>
                data == SortNewestFirst(response.data.rows) && error == None
      ensures response.Success? && !response.data.ok ==>
                data == MockLogs(draw) && error == Some(NotOkMessage)
      ensures response.Failure? ==> data == MockLogs(draw) && error == Some(response.cause)
      ensures NewestFirstOrder(data)
    {
      match response {
        case Success(res) =>
          if res.ok {
            data := SortNewestFirst(res.rows);
            error := None;
          } else {
            data := MockLogs(draw);
            error := Some(NotOkMessage);
          }
        case Failure(cause) =>
          data := MockLogs(draw);
          error := Some(cause);
      }
      loading := false;
    }

    /** The rows of the current page. */
    function Visible(): (rows: seq<LogRow>)
      reads this
      ensures |rows| <= RowsPerPage
      ensures rows == CurrentData(data, page)
    {
      CurrentData(data, page)
    }

    /** `nextPage`. The pager buttons exist only once loading has ended. Without any
        row `nextPage` would set the page to 0; the pager is only rendered when there is
        more than one page. */
    method Next()
      requires Valid() && !loading
      modifies this`page
      ensures page == NextPage(old(page), TotalPages(|data|))
      ensures TotalPages(|data|) >= 1 ==> Valid()
    {
      page := NextPage(page, TotalPages(|data|));
    }

    /** `prevPage`. */
    method Prev()
      requires Valid() && !loading
      modifies this`page
      ensures page == PrevPage(old(page))
      ensures Valid()
    {
      page := PrevPage(page);
    }
  }
}
