/**
 * The "Most Common Mood" card: tallies the moods of all entries into an
 * insertion-ordered map, picks the most frequent one and shows its emoji.
 */
module MoodDistribution {
  import opened Wrappers
  import opened Backend
  import opened Entries
  import Text

  const UnknownMood := "UNKNOWN"
  const UnknownEmoji := "❓"

  datatype MoodCount = MoodCount(mood: string, count: nat)

  /** `entry.mood || "UNKNOWN"`: a missing or empty mood is counted as "UNKNOWN". */
  function MoodKey(mood: Option<string>): (k: string)
    ensures k != ""
    ensures mood.Some? && mood.value != "" ==> k == mood.value
    ensures mood.None? || mood.value == "" ==> k == UnknownMood
  {
    if mood.Some? && mood.value != "" then mood.value else UnknownMood
  }

  /** The key each entry is counted under, in entry order. */
  function MoodKeys(data: seq<ChangelogEntry>): (ks: seq<string>)
    ensures |ks| == |data|
  {
    seq(|data|, i requires 0 <= i < |data| => MoodKey(data[i].mood))
  }

  /** The number of occurrences of `k` in `xs`. */
  function Occurrences(xs: seq<string>, k: string): nat
  {
    if xs == [] then 0
    else Occurrences(xs[..|xs| - 1], k) + (if xs[|xs| - 1] == k then 1 else 0)
  }

  /** The distinct elements of `xs`, in the order of their first occurrence. */
  function FirstSeen(xs: seq<string>): seq<string>
  {
    if xs == [] then []
    else
      var p := FirstSeen(xs[..|xs| - 1]);
      if xs[|xs| - 1] in p then p else p + [xs[|xs| - 1]]
  }

  /** The index of the first occurrence of `k` in `xs`. */
  function FirstIndex(xs: seq<string>, k: string): (i: nat)
    requires k in xs
    ensures i < |xs| && xs[i] == k && k !in xs[..i]
  {
    if xs[0] == k then 0 else 1 + FirstIndex(xs[1..], k)
  }

  lemma {:induction false} FirstIndexExtend(xs: seq<string>, x: string, k: string)
    requires k in xs
    ensures FirstIndex(xs + [x], k) == FirstIndex(xs, k)
  {
    if xs[0] != k {
      assert (xs + [x])[1..] == xs[1..] + [x];
      FirstIndexExtend(xs[1..], x, k);
    }
  }

  lemma {:induction false} OccurrencesPositive(xs: seq<string>, k: string)
    ensures Occurrences(xs, k) > 0 <==> k in xs
  {
    if xs != [] {
      var p := xs[..|xs| - 1];
      OccurrencesPositive(p, k);
      assert xs == p + [xs[|xs| - 1]];
    }
  }

  /**
   * The keys of the tally: the same elements as `xs`, each once, in the
   * order in which they first occur.
   */
  lemma {:induction false} FirstSeenProperties(xs: seq<string>)
    ensures forall k :: k in FirstSeen(xs) <==> k in xs
    ensures forall i, j :: 0 <= i < j < |FirstSeen(xs)| ==> FirstSeen(xs)[i] != FirstSeen(xs)[j]
    ensures forall i, j :: 0 <= i < j < |FirstSeen(xs)| ==>
              FirstSeen(xs)[i] in xs && FirstSeen(xs)[j] in xs &&
              FirstIndex(xs, FirstSeen(xs)[i]) < FirstIndex(xs, FirstSeen(xs)[j])
  {
    if xs != [] {
      var p := xs[..|xs| - 1];
      var x := xs[|xs| - 1];
      assert xs == p + [x];
      FirstSeenProperties(p);
      var f := FirstSeen(p);
      forall k | k in p ensures FirstIndex(xs, k) == FirstIndex(p, k) {
        FirstIndexExtend(p, x, k);
      }
      if x !in f {
        assert x !in p;
        assert FirstIndex(xs, x) == |p|;
      }
    }
  }

  /** One bucket per key, counting the occurrences of that key in `xs`, in key order. */
  function Buckets(keys: seq<string>, xs: seq<string>): (b: seq<MoodCount>)
    ensures |b| == |keys|
    ensures forall i :: 0 <= i < |keys| ==> b[i] == MoodCount(keys[i], Occurrences(xs, keys[i]))
  {
    if keys == [] then []
    else Buckets(keys[..|keys| - 1], xs) + [MoodCount(keys[|keys| - 1], Occurrences(xs, keys[|keys| - 1]))]
  }

  /** The mood tally of a list of entries: first-seen moods with their counts. */
  function Tally(data: seq<ChangelogEntry>): (b: seq<MoodCount>)
    ensures |b| == |FirstSeen(MoodKeys(data))|
    ensures forall i :: 0 <= i < |b| ==> b[i].count == Occurrences(MoodKeys(data), b[i].mood)
  {
    Buckets(FirstSeen(MoodKeys(data)), MoodKeys(data))
  }

  function SumCounts(b: seq<MoodCount>): nat
  {
    if b == [] then 0 else SumCounts(b[..|b| - 1]) + b[|b| - 1].count
  }

  /** The sum over a list of keys of their occurrence counts in `xs`. */
  function SumOccurrences(keys: seq<string>, xs: seq<string>): nat
  {
    if keys == [] then 0
    else SumOccurrences(keys[..|keys| - 1], xs) + Occurrences(xs, keys[|keys| - 1])
  }

  lemma {:induction false} SumCountsBuckets(keys: seq<string>, xs: seq<string>)
    ensures SumCounts(Buckets(keys, xs)) == SumOccurrences(keys, xs)
  {
    if keys != [] {
      var b := Buckets(keys, xs);
      assert b[..|b| - 1] == Buckets(keys[..|keys| - 1], xs);
      SumCountsBuckets(keys[..|keys| - 1], xs);
    }
  }

  /** Appending one element to `xs` adds one to the sum exactly when the element is among the keys. */
  lemma {:induction false} SumOccurrencesAppend(keys: seq<string>, xs: seq<string>, x: string)
    requires forall i, j :: 0 <= i < j < |keys| ==> keys[i] != keys[j]
    ensures SumOccurrences(keys, xs + [x]) == SumOccurrences(keys, xs) + (if x in keys then 1 else 0)
  {
    if keys != [] {
      var init := keys[..|keys| - 1];
      assert (xs + [x])[..|xs + [x]| - 1] == xs;
      SumOccurrencesAppend(init, xs, x);
      assert x in keys <==> x in init || x == keys[|keys| - 1];
    }
  }

  lemma {:induction false} SumOccurrencesFirstSeen(xs: seq<string>)
    ensures SumOccurrences(FirstSeen(xs), xs) == |xs|
  {
    if xs != [] {
      var p := xs[..|xs| - 1];
      var x := xs[|xs| - 1];
      assert xs == p + [x];
      var f := FirstSeen(p);
      FirstSeenProperties(p);
      SumOccurrencesFirstSeen(p);
      SumOccurrencesAppend(f, p, x);
      if x !in f {
        assert FirstSeen(xs) == f + [x];
        assert (f + [x])[..|f|] == f;
        OccurrencesPositive(p, x);
      }
    }
  }

  /** The counts of a tally add up to the number of entries. */
  lemma TallySum(data: seq<ChangelogEntry>)
    ensures SumCounts(Tally(data)) == |data|
  {
    var ks := MoodKeys(data);
    SumCountsBuckets(FirstSeen(ks), ks);
    SumOccurrencesFirstSeen(ks);
  }

  /** Each bucket of a tally counts the entries with its mood, at least one. */
  lemma TallyBucketCounts(data: seq<ChangelogEntry>, i: nat)
    requires i < |Tally(data)|
    ensures Tally(data)[i].count == Occurrences(MoodKeys(data), Tally(data)[i].mood) >= 1
  {
    var ks := MoodKeys(data);
    var f := FirstSeen(ks);
    FirstSeenMember(ks, f[i]);
    OccurrencesPositive(ks, f[i]);
  }

  /** A mood has a bucket exactly when some entry has it. */
  lemma TallyCovers(data: seq<ChangelogEntry>, k: string)
    ensures k in MoodKeys(data) <==> exists i :: 0 <= i < |Tally(data)| && Tally(data)[i].mood == k
  {
    var f := FirstSeen(MoodKeys(data));
    FirstSeenMember(MoodKeys(data), k);
    if k in f {
      var i :| 0 <= i < |f| && f[i] == k;
      assert Tally(data)[i].mood == k;
    }
  }

  /** Earlier buckets hold moods first seen earlier. */
  lemma TallyOrdered(data: seq<ChangelogEntry>, i: nat, j: nat)
    requires i < j < |Tally(data)|
    ensures Tally(data)[i].mood != Tally(data)[j].mood
    ensures Tally(data)[i].mood in MoodKeys(data) && Tally(data)[j].mood in MoodKeys(data)
    ensures FirstIndex(MoodKeys(data), Tally(data)[i].mood) < FirstIndex(MoodKeys(data), Tally(data)[j].mood)
  {
    FirstSeenProperties(MoodKeys(data));
  }

  /**
   * Every entry is counted exactly once: the counts add up to the number of
   * entries, each bucket counts the entries whose key is its mood, and no
   * bucket is empty. The buckets' moods are distinct and in first-seen order.
   */
  lemma TallyCountsEachEntryOnce(data: seq<ChangelogEntry>)
    ensures SumCounts(Tally(data)) == |data|
    ensures forall i :: 0 <= i < |Tally(data)| ==>
              Tally(data)[i].count == Occurrences(MoodKeys(data), Tally(data)[i].mood) >= 1
    ensures forall k :: k in MoodKeys(data) <==> exists i :: 0 <= i < |Tally(data)| && Tally(data)[i].mood == k
    ensures forall i, j :: 0 <= i < j < |Tally(data)| ==>
              Tally(data)[i].mood != Tally(data)[j].mood &&
              Tally(data)[i].mood in MoodKeys(data) && Tally(data)[j].mood in MoodKeys(data) &&
              FirstIndex(MoodKeys(data), Tally(data)[i].mood) < FirstIndex(MoodKeys(data), Tally(data)[j].mood)
  {
    TallySum(data);
    forall i | 0 <= i < |Tally(data)|
      ensures Tally(data)[i].count == Occurrences(MoodKeys(data), Tally(data)[i].mood) >= 1
    {
      TallyBucketCounts(data, i);
    }
    forall k ensures k in MoodKeys(data) <==> exists i :: 0 <= i < |Tally(data)| && Tally(data)[i].mood == k {
      TallyCovers(data, k);
    }
    forall i, j | 0 <= i < j < |Tally(data)|
      ensures Tally(data)[i].mood != Tally(data)[j].mood
      ensures Tally(data)[i].mood in MoodKeys(data) && Tally(data)[j].mood in MoodKeys(data)
      ensures FirstIndex(MoodKeys(data), Tally(data)[i].mood) < FirstIndex(MoodKeys(data), Tally(data)[j].mood)
    {
      TallyOrdered(data, i, j);
    }
  }

  /** Membership in the first-seen keys is membership in the list. */
  lemma {:induction false} FirstSeenMember(xs: seq<string>, k: string)
    ensures k in FirstSeen(xs) <==> k in xs
  {
    if xs != [] {
      var p := xs[..|xs| - 1];
      FirstSeenMember(p, k);
      assert xs == p + [xs[|xs| - 1]];
    }
  }

  /**
   * The state of the tally loop after the keys `xs`: the map's keys in
   * insertion order are the first-seen keys, each mapped to its count.
   */
  ghost predicate Counted(xs: seq<string>, order: seq<string>, counts: map<string, nat>)
  {
    && order == FirstSeen(xs)
    && (forall k :: k in counts <==> k in order)
    && (forall k :: k in counts ==> counts[k] == Occurrences(xs, k))
  }

  /** `moodMap.set(mood, (moodMap.get(mood) || 0) + 1)` keeps the loop state for one more key. */
  lemma CountedStep(xs: seq<string>, x: string, order: seq<string>, counts: map<string, nat>,
                    order': seq<string>, counts': map<string, nat>)
    requires Counted(xs, order, counts)
    requires order' == if x in order then order else order + [x]
    requires counts' == counts[x := (if x in counts then counts[x] else 0) + 1]
    ensures Counted(xs + [x], order', counts')
  {
    assert (xs + [x])[..|xs|] == xs;
    FirstSeenMember(xs, x);
    OccurrencesPositive(xs, x);
  }

  /**
   * `data.forEach(...)` into `moodMap`: the map is a key list in insertion
   * order and a count per key.
   */
  method CountMoods(data: seq<ChangelogEntry>) returns (order: seq<string>, counts: map<string, nat>)
    ensures Counted(MoodKeys(data), order, counts)
  {
    ghost var ks := MoodKeys(data);
    order, counts := [], map[];
    var i := 0;
    while i < |data|
      invariant 0 <= i <= |data|
      invariant Counted(ks[..i], order, counts)
    {
      var mood := MoodKey(data[i].mood);
      ghost var order0, counts0 := order, counts;
      var previous := if mood in counts then counts[mood] else 0;
      if mood !in order {
        order := order + [mood];
      }
      counts := counts[mood := previous + 1];
      CountedStep(ks[..i], mood, order0, counts0, order, counts);
      assert ks[..i + 1] == ks[..i] + [mood];
      i := i + 1;
    }
    assert ks[..|data|] == ks;
  }

  /**
   * The whole tally: count into the map, then
   * `Array.from(moodMap.entries()).map(...)` in insertion order.
   */
  method TallyMoods(data: seq<ChangelogEntry>) returns (moodArray: seq<MoodCount>)
    ensures moodArray == Tally(data)
  {
    var order, counts := CountMoods(data);
    ghost var ks := MoodKeys(data);
    moodArray := [];
    var j := 0;
    while j < |order|
      invariant 0 <= j <= |order|
      invariant moodArray == Buckets(order[..j], ks)
    {
      assert order[..j + 1][..j] == order[..j];
      moodArray := moodArray + [MoodCount(order[j], counts[order[j]])];
      j := j + 1;
    }
    assert order[..|order|] == order;
  }

  /**
   * The index `moodCounts.reduce((prev, current) => prev.count > current.count ? prev : current)`
   * ends on: the left fold keeps the earlier bucket only when its count is
   * strictly greater.
   */
  function TopIndex(b: seq<MoodCount>): (k: nat)
    requires |b| > 0
    ensures k < |b|
    ensures forall j :: 0 <= j < |b| ==> b[j].count <= b[k].count
  {
    if |b| == 1 then 0
    else
      var k := TopIndex(b[..|b| - 1]);
      if b[k].count > b[|b| - 1].count then k else |b| - 1
  }

  /** `topMood`: null exactly when there are no buckets. */
  function TopMood(b: seq<MoodCount>): (top: Option<MoodCount>)
    ensures top.None? <==> b == []
  {
    if |b| > 0 then Some(b[TopIndex(b)]) else None
  }

  /**
   * The chosen bucket has the largest count, and every later bucket has a
   * strictly smaller one: among tied moods the last one wins.
   */
  lemma {:induction false} TopIndexIsLastMaximum(b: seq<MoodCount>)
    requires |b| > 0
    ensures forall j :: 0 <= j < |b| ==> b[j].count <= b[TopIndex(b)].count
    ensures forall j :: TopIndex(b) < j < |b| ==> b[j].count < b[TopIndex(b)].count
  {
    if |b| > 1 {
      var p := b[..|b| - 1];
      TopIndexIsLastMaximum(p);
      assert forall j :: 0 <= j < |p| ==> p[j] == b[j];
    }
  }

  /**
   * On a tally, the top mood is a mood no other mood outnumbers, and no
   * mood seen after it for the first time is as frequent.
   */
  lemma TopMoodOfTally(data: seq<ChangelogEntry>)
    requires |data| > 0
    ensures TopMood(Tally(data)).Some?
    ensures var top := TopMood(Tally(data)).value;
            top.mood in MoodKeys(data) && top.count == Occurrences(MoodKeys(data), top.mood)
            && forall k :: k in MoodKeys(data) ==> Occurrences(MoodKeys(data), k) <= top.count
  {
    var b := Tally(data);
    TallyCountsEachEntryOnce(data);
    assert MoodKeys(data)[0] in MoodKeys(data);
    TopIndexIsLastMaximum(b);
  }

  /** `getMoodEmoji`: the six moods have six different emoji, anything else (including "UNKNOWN") "❓". */
  function MoodEmoji(mood: string): (e: string)
    ensures e == UnknownEmoji <==> ParseMood(mood).None?
  {
    match mood
    case "HAPPY" => "😊"
    case "SAD" => "😢"
    case "NEUTRAL" => "😐"
    case "EXCITED" => "🎉"
    case "STRESSED" => "😰"
    case "TIRED" => "😴"
    case _ => UnknownEmoji
  }

  lemma MoodEmojiDistinct(a: Mood, b: Mood)
    requires a != b
    ensures MoodEmoji(a.Name()) != MoodEmoji(b.Name())
  {
  }

  /** The card's headline and caption. */
  function MoodCard(loading: bool, moodCounts: seq<MoodCount>): (card: (string, string))
    ensures loading ==> card.0 == "..."
    ensures !loading && moodCounts == [] ==> card.0 == "No data"
    ensures moodCounts == [] <==> card.1 == "Log more entries to see stats"
    ensures !loading && moodCounts != [] ==>
              var top := moodCounts[TopIndex(moodCounts)];
              card.0 == MoodEmoji(top.mood) + " " + top.mood
    ensures moodCounts != [] ==>
              var top := moodCounts[TopIndex(moodCounts)];
              card.1 == Text.NatToString(top.count) + " entries with this mood"
  {
    var top := TopMood(moodCounts);
    var headline :=
      if loading then "..."
      else if top.Some? then MoodEmoji(top.value.mood) + " " + top.value.mood
      else "No data";
    var caption :=
      if top.Some? then Text.NatToString(top.value.count) + " entries with this mood"
      else "Log more entries to see stats";
    assert top.Some? ==> '0' <= caption[0] <= '9';
    (headline, caption)
  }

  class MoodDistributionState {
    var moodCounts: seq<MoodCount>
    var loading: bool

    constructor ()
      ensures moodCounts == [] && loading
    {
      moodCounts := [];
      loading := true;
    }

    /**
     * `fetchMoodStats`: without a token nothing happens; otherwise a success
     * replaces the buckets with the tally of all entries, a failure keeps
     * them, and loading ends either way.
     */
    method FetchMoodStats(token: Option<string>, response: Response<seq<ChangelogEntry>>)
      modifies this
      ensures !HasToken(token) ==> moodCounts == old(moodCounts) && loading == old(loading)
      ensures HasToken(token) ==> !loading
      ensures HasToken(token) && response.Ok? ==> moodCounts == Tally(response.body)
      ensures HasToken(token) && !response.Ok? ==> moodCounts == old(moodCounts)
    {
      if !HasToken(token) {
        return;
      }
      loading := true;
      if response.Ok? {
        var moodArray := TallyMoods(response.body);
        moodCounts := moodArray;
      }
      loading := false;
    }
  }
}
