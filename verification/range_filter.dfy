/**
  The trailing-window filter of the hybrid page: a range tag picks how many
  trailing observations the chart and the prediction see.
 */
module RangeFilter {
  import opened Series

  /**
    Number of trailing periods a tag asks for. `None` stands for JavaScript's
    `Infinity`: the entry of `'all'`, and the `|| Infinity` default of every
    tag the table does not know.
   */
  function RangeLimit(tag: string): (r: Option<nat>)
    ensures r.Some? <==> tag in {"1m", "3m", "6m", "1y"}
    ensures r.Some? ==> r.value >= 1
  {
    if tag == "1m" then Some(1)
    else if tag == "3m" then Some(3)
    else if tag == "6m" then Some(6)
    else if tag == "1y" then Some(12)
    else None
  }

  /** `data.slice(-limit)` for a positive `limit`: start `limit` from the end, or at 0. */
  function SliceLast<T>(data: seq<T>, limit: nat): seq<T>
    requires limit >= 1
  {
    var start := if |data| - limit < 0 then 0 else |data| - limit;
    data[start..]
  }

  /** The number of elements a tag keeps from a series of length `n`. */
  function KeptLength(tag: string, n: nat): nat
  {
    match RangeLimit(tag)
    case None => n
    case Some(l) => if l < n then l else n
  }

  /**
    The trailing window for `tag`: the last `min(limit, n)` elements, in
    their original order; the whole series for `'all'` and unknown tags.
   */
  function FilterByRange<T>(data: seq<T>, tag: string): (r: seq<T>)
    ensures |r| == KeptLength(tag, |data|)
    ensures r == data[|data| - |r|..]
    ensures RangeLimit(tag).None? ==> r == data
  {
    match RangeLimit(tag)
    case None => data
    case Some(l) => SliceLast(data, l)
  }

  /** Applying a tag twice keeps what applying it once kept. */
  lemma FilterIdempotent<T>(data: seq<T>, tag: string)
    ensures FilterByRange(FilterByRange(data, tag), tag) == FilterByRange(data, tag)
  {
    var once := FilterByRange(data, tag);
    var twice := FilterByRange(once, tag);
    assert |twice| == |once|;
  }

  /** Two filters in a row keep the trailing window of the narrower one. */
  lemma FilterCompose<T>(data: seq<T>, first: string, second: string)
    ensures |FilterByRange(FilterByRange(data, first), second)|
            == KeptLength(second, KeptLength(first, |data|))
    ensures FilterByRange(FilterByRange(data, first), second)
            == data[|data| - KeptLength(second, KeptLength(first, |data|))..]
  {
    var once := FilterByRange(data, first);
    var twice := FilterByRange(once, second);
    assert once == data[|data| - |once|..];
    assert twice == once[|once| - |twice|..];
    assert twice == data[|data| - |twice|..];
  }

  /** The lengths the tags give a 60-month history. */
  lemma FilterLengthsOfFiveYears<T>(data: seq<T>)
    requires |data| == 60
    ensures |FilterByRange(data, "1m")| == 1
    ensures |FilterByRange(data, "3m")| == 3
    ensures |FilterByRange(data, "6m")| == 6
    ensures |FilterByRange(data, "1y")| == 12
    ensures |FilterByRange(data, "all")| == 60
    ensures FilterByRange(FilterByRange(data, "1m"), "all") == FilterByRange(data, "1m")
  {
  }
}
