/** The per-token price history kept by the strategy builder: a sequence of
    timestamped samples, appended on every tick and trimmed from the head once
    samples fall outside the retention horizon; plus the read-only window that
    the dip detector looks at. Timestamps are milliseconds. */
module PriceHistory {
  import opened Common

  datatype PricePoint = PricePoint(timestamp: int, price: real)

  /** One history entry of the builder's registry: the samples and the
      retention horizon fixed when the entry was created. */
  datatype TokenHistory = TokenHistory(prices: seq<PricePoint>, maxHistoryAge: int)

  /** Seven days in milliseconds, the minimum retention horizon. */
  const WEEK_MS: int := 604800000

  /** The horizon a new entry gets: seven days or twice the dip window,
      whichever is longer. */
  function MaxHistoryAge(dipTimeframe: int): (age: int)
    ensures age >= WEEK_MS && age >= 2 * dipTimeframe
    ensures age == WEEK_MS || age == 2 * dipTimeframe
  {
    Max(WEEK_MS, dipTimeframe * 2)
  }

  /** A fresh, empty entry for a strategy with the given dip window. */
  function NewHistory(dipTimeframe: int): (h: TokenHistory)
    ensures h.prices == []
    ensures h.maxHistoryAge >= WEEK_MS && h.maxHistoryAge >= 2 * dipTimeframe
  {
    TokenHistory([], MaxHistoryAge(dipTimeframe))
  }

  ghost predicate Sorted(s: seq<PricePoint>) {
    forall i, j :: 0 <= i < j < |s| ==> s[i].timestamp <= s[j].timestamp
  }

  /** What eviction leaves: the samples from the first one that is not older
      than `cutoff` on. */
  function DropExpired(s: seq<PricePoint>, cutoff: int): seq<PricePoint>
  {
    if |s| > 0 && s[0].timestamp < cutoff then DropExpired(s[1..], cutoff) else s
  }

  /** The eviction loop: shift the head while it is older than `cutoff`. */
  method EvictExpired(prices: seq<PricePoint>, cutoff: int) returns (r: seq<PricePoint>)
    ensures r == DropExpired(prices, cutoff)
  {
    r := prices;
    while |r| > 0 && r[0].timestamp < cutoff
      invariant DropExpired(r, cutoff) == DropExpired(prices, cutoff)
    {
      r := r[1..];
    }
  }

  /** Eviction removes only a prefix, and only samples older than `cutoff`;
      what remains is empty or starts with a sample that is not expired. */
  lemma {:induction false} DropExpiredIsSuffix(s: seq<PricePoint>, cutoff: int)
    ensures var r := DropExpired(s, cutoff);
      && |r| <= |s|
      && r == s[|s| - |r|..]
      && (forall j :: 0 <= j < |s| - |r| ==> s[j].timestamp < cutoff)
      && (|r| > 0 ==> r[0].timestamp >= cutoff)
  {
    if |s| > 0 && s[0].timestamp < cutoff {
      DropExpiredIsSuffix(s[1..], cutoff);
      var r := DropExpired(s, cutoff);
      assert s[1..][|s| - 1 - |r|..] == s[|s| - |r|..];
      forall j | 0 <= j < |s| - |r| ensures s[j].timestamp < cutoff {
        if j > 0 { assert s[j] == s[1..][j - 1]; }
      }
    }
  }

  /** On a time-ordered history every remaining sample is within the horizon. */
  lemma DropExpiredAllRecent(s: seq<PricePoint>, cutoff: int)
    requires Sorted(s)
    ensures var r := DropExpired(s, cutoff);
      forall i :: 0 <= i < |r| ==> r[i].timestamp >= cutoff
  {
    DropExpiredIsSuffix(s, cutoff);
    var r := DropExpired(s, cutoff);
    forall i | 0 <= i < |r| ensures r[i].timestamp >= cutoff {
      assert r[0] == s[|s| - |r|] && r[i] == s[|s| - |r| + i];
    }
  }

  /** The history after a tick at time `now` has sampled `price`. */
  function Recorded(h: TokenHistory, now: int, price: real): TokenHistory
  {
    h.(prices := DropExpired(h.prices + [PricePoint(now, price)], now - h.maxHistoryAge))
  }

  /** Recording keeps the new sample as the last one, drops only expired
      samples from the head, and (when samples arrive in time order) leaves
      the history sorted with every sample inside the horizon. */
  lemma RecordedProperties(h: TokenHistory, now: int, price: real)
    requires h.maxHistoryAge >= 0
    ensures var r := Recorded(h, now, price).prices;
      var cutoff := now - h.maxHistoryAge;
      && 0 < |r| <= |h.prices| + 1 && r[|r| - 1] == PricePoint(now, price)
      && r == (h.prices + [PricePoint(now, price)])[|h.prices| + 1 - |r|..]
      && (forall j :: 0 <= j < |h.prices| + 1 - |r| ==> h.prices[j].timestamp < cutoff)
    ensures Sorted(h.prices) && (forall i :: 0 <= i < |h.prices| ==> h.prices[i].timestamp <= now) ==>
      var r := Recorded(h, now, price).prices;
      Sorted(r) && forall i :: 0 <= i < |r| ==> r[i].timestamp >= now - h.maxHistoryAge
  {
    var s := h.prices + [PricePoint(now, price)];
    var cutoff := now - h.maxHistoryAge;
    DropExpiredIsSuffix(s, cutoff);
    var r := DropExpired(s, cutoff);
    assert s[|s| - 1].timestamp >= cutoff;
    forall j | 0 <= j < |h.prices| + 1 - |r| ensures h.prices[j].timestamp < cutoff {
      assert s[j] == h.prices[j];
    }
    if Sorted(h.prices) && (forall i :: 0 <= i < |h.prices| ==> h.prices[i].timestamp <= now) {
      assert Sorted(s);
      DropExpiredAllRecent(s, cutoff);
      assert Sorted(r) by {
        forall i, j | 0 <= i < j < |r| ensures r[i].timestamp <= r[j].timestamp {
          assert r[i] == s[|s| - |r| + i] && r[j] == s[|s| - |r| + j];
        }
      }
    }
  }

  /** The samples no older than `timeframe` milliseconds at time `now`, in
      their original order. */
  function Window(s: seq<PricePoint>, now: int, timeframe: int): (w: seq<PricePoint>)
    ensures |w| <= |s|
    ensures forall p :: p in w <==> p in s && p.timestamp >= now - timeframe
  {
    if s == [] then []
    else
      var rest := Window(s[1..], now, timeframe);
      assert forall p :: p in s <==> p == s[0] || p in s[1..];
      if s[0].timestamp >= now - timeframe then [s[0]] + rest else rest
  }

  /** A history whose samples are all recent enough is its own window. */
  lemma {:induction false} WindowOfRecent(s: seq<PricePoint>, now: int, timeframe: int)
    requires forall i :: 0 <= i < |s| ==> s[i].timestamp >= now - timeframe
    ensures Window(s, now, timeframe) == s
  {
    if s != [] {
      WindowOfRecent(s[1..], now, timeframe);
    }
  }

  /** The window of a time-ordered history is one of its suffixes. */
  lemma {:induction false} WindowOfSortedIsSuffix(s: seq<PricePoint>, now: int, timeframe: int)
    requires Sorted(s)
    ensures var w := Window(s, now, timeframe); w == s[|s| - |w|..]
  {
    if s != [] {
      if s[0].timestamp >= now - timeframe {
        WindowOfRecent(s, now, timeframe);
      } else {
        WindowOfSortedIsSuffix(s[1..], now, timeframe);
      }
    }
  }

  /** The highest price of a non-empty list of samples (`Math.max`). */
  function Highest(w: seq<PricePoint>): (m: real)
    requires |w| > 0
    ensures exists i :: 0 <= i < |w| && w[i].price == m
    ensures forall i :: 0 <= i < |w| ==> w[i].price <= m
  {
    if |w| == 1 then w[0].price
    else
      var rest := Highest(w[1..]);
      assert forall i :: 1 <= i < |w| ==> w[i] == w[1..][i - 1];
      if w[0].price >= rest then w[0].price else rest
  }
}
