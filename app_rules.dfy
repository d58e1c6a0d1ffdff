/** The state-update rules of `App.tsx`, lifted out of the component: the
    recording clock, the self-timer, the capture countdown, the impact and
    priority bands, the sector list order, the history archive, the pinned
    detections and the local history search. Each React `prev => ...`
    updater is a function from the old state to the new one. */
module AppRules {
  import opened Wrappers
  import opened Text
  import opened Types
  import Seqs

  // ---------------------------------------------------------------------------
  // formatTime
  // ---------------------------------------------------------------------------

  /** `n.toString().padStart(2, '0')` */
  function TwoDigits(n: nat): string {
    PadStart(NatToString(n), 2, '0')
  }

  /** `formatTime(seconds)`: minutes and seconds, each at least two digits. */
  function FormatTime(seconds: nat): string {
    TwoDigits(seconds / 60) + ":" + TwoDigits(seconds % 60)
  }

  lemma TwoDigitsValue(n: nat)
    ensures |TwoDigits(n)| >= 2 && AllDigits(TwoDigits(n))
    ensures ParseDecimal(TwoDigits(n)) == n
    ensures n < 100 ==> |TwoDigits(n)| == 2
  {
    ParseNatToString(n);
    if n < 10 {
      ParseLeadingZero(NatToString(n));
      assert TwoDigits(n) == ['0'] + NatToString(n);
    }
  }

  /** The clock reads back as the number it shows: the two characters after
      the colon are the seconds (below 60), everything before it the minutes
      (at least two digits), and minutes * 60 + seconds is the input. */
  lemma FormatTimeReadsBack(n: nat)
    ensures var t := FormatTime(n);
      && |t| >= 5 && t[|t| - 3] == ':'
      && AllDigits(t[..|t| - 3]) && AllDigits(t[|t| - 2..])
      && ParseDecimal(t[|t| - 2..]) < 60
      && ParseDecimal(t[..|t| - 3]) * 60 + ParseDecimal(t[|t| - 2..]) == n
      && (n < 6000 ==> |t| == 5)
  {
    var t, m, s := FormatTime(n), TwoDigits(n / 60), TwoDigits(n % 60);
    TwoDigitsValue(n / 60);
    TwoDigitsValue(n % 60);
    assert t[|t| - 2..] == s;
    assert t[..|t| - 3] == m;
  }

  // ---------------------------------------------------------------------------
  // toggleTimer
  // ---------------------------------------------------------------------------

  const TimerSequence: seq<int> := [0, 3, 5, 10]

  /** `toggleTimer`: the delay after `current` in 0, 3, 5, 10, wrapping to 0;
      a delay not in the sequence has index -1 and so also moves to 0. */
  function NextTimerDelay(current: int): (next: int)
    ensures next in TimerSequence
  {
    TimerSequence[(Seqs.IndexOf(TimerSequence, current) + 1) % |TimerSequence|]
  }

  /** The timer steps 0 -> 3 -> 5 -> 10 -> 0. */
  lemma TimerSteps()
    ensures NextTimerDelay(0) == 3 && NextTimerDelay(3) == 5
    ensures NextTimerDelay(5) == 10 && NextTimerDelay(10) == 0
  {
    var s := TimerSequence;
    assert s[0] == 0 && s[1] == 3 && s[2] == 5 && s[3] == 10;
    assert Seqs.IndexOf(s, 0) == 0;
    assert Seqs.IndexOf(s, 3) == 1;
    assert Seqs.IndexOf(s, 5) == 2;
    assert Seqs.IndexOf(s, 10) == 3;
  }

  /** Four toggles restore any delay of the sequence; any other value is
      sent back to 0. */
  lemma TimerCycle(d: int)
    ensures d !in TimerSequence ==> NextTimerDelay(d) == 0
    ensures d in TimerSequence ==> NextTimerDelay(NextTimerDelay(NextTimerDelay(NextTimerDelay(d)))) == d
  {
    if d in TimerSequence {
      TimerSteps();
      assert d == 0 || d == 3 || d == 5 || d == 10;
    } else {
      assert Seqs.IndexOf(TimerSequence, d) == -1;
    }
  }

  // ---------------------------------------------------------------------------
  // Capture countdown
  // ---------------------------------------------------------------------------

  /** What the shutter button starts: an immediate capture for delay 0,
      otherwise a countdown from the delay. */
  datatype CaptureStart = CaptureNow | CountFrom(delay: int)

  function StartCaptureCountdown(timerDelay: int): (r: CaptureStart)
    ensures r == CaptureNow <==> timerDelay == 0
    ensures r.CountFrom? ==> r.delay == timerDelay
  {
    if timerDelay == 0 then CaptureNow else CountFrom(timerDelay)
  }

  /** One interval tick: the new countdown value, and whether the capture
      fires (and the interval is cleared) on this tick. */
  datatype Tick = Tick(countdown: Option<int>, capture: bool)

  /** The countdown updater: `null` or a value of at most 1 clears the
      countdown and fires the capture; anything else counts down by one. */
  function CountdownTick(prev: Option<int>): (t: Tick)
    ensures t.capture <==> prev.None? || prev.value <= 1
    ensures t.capture <==> t.countdown.None?
    ensures !t.capture ==> t.countdown.value == prev.value - 1
  {
    if prev.None? || prev.value <= 1 then Tick(None, true)
    else Tick(Some(prev.value - 1), false)
  }

  /** The countdown after `k` ticks without a capture. */
  function CountdownAfter(start: Option<int>, k: nat): Option<int> {
    if k == 0 then start else CountdownTick(CountdownAfter(start, k - 1)).countdown
  }

  /** Started from `d >= 1`, the capture fires on tick `d` and on no earlier
      tick; since that tick clears the interval, it fires exactly once. */
  lemma {:induction false} CountdownFiresOnce(d: int, k: nat)
    requires d >= 1 && 1 <= k <= d
    ensures k < d ==> CountdownAfter(Some(d), k) == Some(d - k)
    ensures CountdownTick(CountdownAfter(Some(d), k - 1)).capture <==> k == d
  {
    if k > 1 {
      CountdownFiresOnce(d, k - 1);
    }
  }

  // ---------------------------------------------------------------------------
  // Impact bands, the 10-segment bar and priority colours
  // ---------------------------------------------------------------------------

  datatype Band = Emerald | Amber | Red

  /** Scores up to 30 are emerald, up to 60 amber, the rest red. */
  function ImpactBand(score: real): Band {
    if score <= 30.0 then Emerald else if score <= 60.0 then Amber else Red
  }

  function BandRank(b: Band): nat {
    match b
    case Emerald => 0
    case Amber => 1
    case Red => 2
  }

  /** `getImpactColor` */
  function ImpactColor(score: real): string {
    match ImpactBand(score)
    case Emerald => "text-emerald-400"
    case Amber => "text-amber-400"
    case Red => "text-red-500"
  }

  /** `getImpactBg` */
  function ImpactBg(score: real): string {
    match ImpactBand(score)
    case Emerald => "bg-emerald-500"
    case Amber => "bg-amber-500"
    case Red => "bg-red-500"
  }

  /** A higher score never falls in a milder band. */
  lemma ImpactBandMonotone(a: real, b: real)
    requires a <= b
    ensures BandRank(ImpactBand(a)) <= BandRank(ImpactBand(b))
  {
  }

  /** Both colour helpers switch at the same two thresholds: emerald up to
      30, red above 60, amber in between. */
  lemma ImpactThresholds(score: real)
    ensures ImpactColor(score) == "text-emerald-400" <==> score <= 30.0
    ensures ImpactColor(score) == "text-red-500" <==> score > 60.0
    ensures ImpactBg(score) == "bg-emerald-500" <==> score <= 30.0
    ensures ImpactBg(score) == "bg-red-500" <==> score > 60.0
    ensures ImpactBg(score) != Unlit
  {
  }

  const Unlit: string := "bg-slate-800"

  /** The impact bar: segment `i` of 10 takes the band colour when the score
      reaches `(i + 1) * 10`, and is unlit otherwise. */
  function ImpactBar(score: real): (bar: seq<string>)
    ensures |bar| == 10
  {
    seq(10, i requires 0 <= i < 10 => if score >= ((i + 1) * 10) as real then ImpactBg(score) else Unlit)
  }

  /** How many segments a score lights: a tenth of it, rounded down, kept
      within 0..10. */
  function LitSegments(score: real): nat {
    var tenths := (score / 10.0).Floor;
    if tenths < 0 then 0 else if tenths > 10 then 10 else tenths
  }

  /** The lit segments are exactly the first `LitSegments(score)` ones, all in
      the band colour (which is never the unlit colour). */
  lemma ImpactBarLitPrefix(score: real)
    ensures forall i :: 0 <= i < 10 ==> (ImpactBar(score)[i] != Unlit <==> i < LitSegments(score))
    ensures forall i :: 0 <= i < LitSegments(score) ==> ImpactBar(score)[i] == ImpactBg(score)
  {
  }

  /** The string a task's `priority` holds. */
  function PriorityName(p: Priority): string {
    match p
    case High => "high"
    case Medium => "medium"
    case Low => "low"
  }

  /** `getPriorityColor(priority)`: it takes any string. */
  function PriorityColor(priority: string): string {
    if priority == "high" then "bg-red-500"
    else if priority == "medium" then "bg-amber-500"
    else "bg-blue-500"
  }

  /** Red exactly for `'high'`, amber exactly for `'medium'`, and blue for
      every other string, `'low'` and unknown ones alike. */
  lemma PriorityColorSpec(priority: string)
    ensures PriorityColor(priority) == "bg-red-500" <==> priority == "high"
    ensures PriorityColor(priority) == "bg-amber-500" <==> priority == "medium"
    ensures PriorityColor(priority) == "bg-blue-500" <==> priority != "high" && priority != "medium"
  {
    assert |"bg-red-500"| == 10 && |"bg-blue-500"| == 11 && |"bg-amber-500"| == 12;
  }

  /** The three priorities of a task get three different colours. */
  lemma PriorityColorDistinguishes(p: Priority, q: Priority)
    ensures PriorityColor(PriorityName(p)) == PriorityColor(PriorityName(q)) <==> p == q
  {
    assert |"bg-red-500"| == 10 && |"bg-blue-500"| == 11 && |"bg-amber-500"| == 12;
    assert |"high"| != |"medium"| && "low" != "high" && |"low"| != |"medium"|;
  }

  // ---------------------------------------------------------------------------
  // Sector list order
  // ---------------------------------------------------------------------------

  /** The comparator's weights `{high: 3, medium: 2, low: 1}`. */
  function PriorityRank(p: Priority): nat {
    match p
    case High => 3
    case Medium => 2
    case Low => 1
  }

  predicate HasPriority(p: Priority, t: SectorTask) {
    t.priority == p
  }

  /** The tasks of one priority, in list order. */
  function Group(nodes: seq<SectorTask>, p: Priority): (g: seq<SectorTask>)
    ensures forall i :: 0 <= i < |g| ==> g[i].priority == p
  {
    var g := Seqs.Filter(nodes, t => HasPriority(p, t));
    Seqs.FilterSpec(nodes, t => HasPriority(p, t));
    assert forall i :: 0 <= i < |g| ==> g[i] in g;
    g
  }

  /** `localNodes.sort((a, b) => p[b.priority] - p[a.priority])`. The sort is
      stable, so its result is the high tasks, then the medium, then the low,
      each group in its original order. */
  function SortByPriority(nodes: seq<SectorTask>): seq<SectorTask> {
    Group(nodes, High) + Group(nodes, Medium) + Group(nodes, Low)
  }

  /** The sorted list is in non-increasing rank. */
  lemma SortByPriorityOrdered(nodes: seq<SectorTask>)
    ensures var r := SortByPriority(nodes);
      forall i, j :: 0 <= i < j < |r| ==> PriorityRank(r[i].priority) >= PriorityRank(r[j].priority)
  {
  }

  /** The three priority groups together hold every task of the list, as
      often as the list does. */
  lemma SortByPriorityPermutes(nodes: seq<SectorTask>)
    ensures multiset(SortByPriority(nodes)) == multiset(nodes)
  {
    Seqs.FilterPartition3(nodes, t => HasPriority(High, t), t => HasPriority(Medium, t), t => HasPriority(Low, t));
  }

  /** Tasks of equal priority keep their relative order. */
  lemma SortByPriorityStable(nodes: seq<SectorTask>, p: Priority)
    ensures Group(SortByPriority(nodes), p) == Group(nodes, p)
  {
    var keep := t => HasPriority(p, t);
    var hi, me, lo := Group(nodes, High), Group(nodes, Medium), Group(nodes, Low);
    Seqs.FilterAppend(hi + me, lo, keep);
    Seqs.FilterAppend(hi, me, keep);
    GroupOfGroup(nodes, High, p);
    GroupOfGroup(nodes, Medium, p);
    GroupOfGroup(nodes, Low, p);
  }

  /** Selecting one priority out of one priority group keeps all of it or none. */
  lemma GroupOfGroup(nodes: seq<SectorTask>, g: Priority, p: Priority)
    ensures Group(Group(nodes, g), p) == if g == p then Group(nodes, g) else []
  {
    var group := Group(nodes, g);
    if g == p {
      Seqs.FilterKeepsAll(group, t => HasPriority(p, t));
    } else {
      Seqs.FilterDropsAll(group, t => HasPriority(p, t));
    }
  }

  // ---------------------------------------------------------------------------
  // History archive
  // ---------------------------------------------------------------------------

  /** The archive as the component holds it: the entries (newest first), the
      entry open in the detail view, and the "saved" flag of the current
      analysis. */
  datatype HistoryView = HistoryView(
    history: seq<AnalysisHistoryEntry>,
    selected: Option<AnalysisHistoryEntry>,
    isSaved: bool)

  /** `saveToHistory`: without an analysis result nothing happens; otherwise a
      new entry with the fresh id and timestamp goes in front and the flag is
      set. */
  function SaveToHistory(
    view: HistoryView, result: Option<AnalysisResult>,
    freshId: string, timestamp: string, mediaUrl: Option<string>): (r: HistoryView)
    ensures result.None? ==> r == view
    ensures result.Some? ==>
      && |r.history| == |view.history| + 1
      && r.history[1..] == view.history
      && r.history[0].id == freshId && r.history[0].timestamp == timestamp
      && r.history[0].issue == result.value.issue
      && r.history[0].actionPlan == result.value.actionPlan
      && r.history[0].mediaUrl == mediaUrl
      && r.isSaved && r.selected == view.selected
  {
    if result.None? then view
    else
      var entry := AnalysisHistoryEntry(freshId, timestamp, result.value.issue, result.value.actionPlan, mediaUrl);
      view.(history := [entry] + view.history, isSaved := true)
  }

  predicate HasOtherId(id: string, e: AnalysisHistoryEntry) {
    e.id != id
  }

  /** `deleteHistoryItem`: drops the entries with that id, and closes the
      detail view if it showed one of them. */
  function DeleteHistoryItem(view: HistoryView, id: string): HistoryView {
    view.(
      history := Seqs.Filter(view.history, e => HasOtherId(id, e)),
      selected := if view.selected.Some? && view.selected.value.id == id then None else view.selected)
  }

  /** Exactly the entries with that id go; the others stay, in order; the
      selection is cleared iff the selected entry had that id; nothing changes
      when no entry has it. */
  lemma DeleteHistoryItemSpec(view: HistoryView, id: string)
    ensures var r := DeleteHistoryItem(view, id);
      && Seqs.IsSubsequence(r.history, view.history)
      && (forall e :: e in r.history <==> e in view.history && e.id != id)
      && (forall e :: multiset(r.history)[e] == if e.id != id then multiset(view.history)[e] else 0)
      && (r.selected.None? <==> view.selected.None? || view.selected.value.id == id)
      && (r.selected.Some? ==> r.selected == view.selected)
      && r.isSaved == view.isSaved
      && ((forall i :: 0 <= i < |view.history| ==> view.history[i].id != id) ==> r.history == view.history)
  {
    Seqs.FilterSpec(view.history, e => HasOtherId(id, e));
    if forall i :: 0 <= i < |view.history| ==> view.history[i].id != id {
      Seqs.FilterKeepsAll(view.history, e => HasOtherId(id, e));
    }
  }

  // ---------------------------------------------------------------------------
  // Pinned detections
  // ---------------------------------------------------------------------------

  /** `isObjPinned(id)` */
  predicate IsPinned(pinned: seq<DetectedObject>, id: string) {
    exists i :: 0 <= i < |pinned| && pinned[i].id == id
  }

  predicate NotWithId(id: string, p: DetectedObject) {
    p.id != id
  }

  /** `togglePinDetection(obj)`: unpins every object with that id when one is
      pinned, otherwise appends the object. */
  function TogglePin(pinned: seq<DetectedObject>, obj: DetectedObject): seq<DetectedObject> {
    if IsPinned(pinned, obj.id) then Seqs.Filter(pinned, p => NotWithId(obj.id, p))
    else pinned + [obj]
  }

  /** Toggling flips whether the object's id is pinned and leaves every other
      id as it was; an unpinned object goes at the end. */
  lemma TogglePinFlips(pinned: seq<DetectedObject>, obj: DetectedObject, other: string)
    requires other != obj.id
    ensures IsPinned(TogglePin(pinned, obj), obj.id) <==> !IsPinned(pinned, obj.id)
    ensures IsPinned(TogglePin(pinned, obj), other) <==> IsPinned(pinned, other)
    ensures !IsPinned(pinned, obj.id) ==> TogglePin(pinned, obj) == pinned + [obj]
  {
    if IsPinned(pinned, obj.id) {
      UnpinSpec(pinned, obj.id, other);
    } else {
      var r := TogglePin(pinned, obj);
      assert r[|pinned|] == obj;
      if IsPinned(r, other) {
        var i :| 0 <= i < |r| && r[i].id == other;
        assert pinned[i].id == other;
      }
      if IsPinned(pinned, other) {
        var i :| 0 <= i < |pinned| && pinned[i].id == other;
        assert r[i].id == other;
      }
    }
  }

  /** Unpinning an id leaves it unpinned and every other id as it was. */
  lemma UnpinSpec(pinned: seq<DetectedObject>, id: string, other: string)
    requires other != id
    ensures var r := Seqs.Filter(pinned, p => NotWithId(id, p));
      && !IsPinned(r, id)
      && (IsPinned(r, other) <==> IsPinned(pinned, other))
  {
    var r := Seqs.Filter(pinned, p => NotWithId(id, p));
    Seqs.FilterSpec(pinned, p => NotWithId(id, p));
    assert forall i :: 0 <= i < |r| ==> r[i] in r;
    if IsPinned(pinned, other) {
      var i :| 0 <= i < |pinned| && pinned[i].id == other;
      assert pinned[i] in r;
    }
    if IsPinned(r, other) {
      var i :| 0 <= i < |r| && r[i].id == other;
      assert r[i] in pinned;
    }
  }

  /** Pinning an object that was not pinned and unpinning it again restores
      the list. */
  lemma TogglePinTwice(pinned: seq<DetectedObject>, obj: DetectedObject)
    requires !IsPinned(pinned, obj.id)
    ensures TogglePin(TogglePin(pinned, obj), obj) == pinned
  {
    var once := pinned + [obj];
    assert once[|pinned|].id == obj.id;
    Seqs.FilterAppend(pinned, [obj], p => NotWithId(obj.id, p));
    Seqs.FilterKeepsAll(pinned, p => NotWithId(obj.id, p));
    assert Seqs.Filter([obj], p => NotWithId(obj.id, p)) == [];
  }

  // ---------------------------------------------------------------------------
  // Local history search
  // ---------------------------------------------------------------------------

  /** The local match test: the lower-cased title or description includes the
      lower-cased query (the query itself is not trimmed). */
  predicate MatchesQuery(query: string, e: AnalysisHistoryEntry) {
    || Includes(ToLower(e.issue.title), ToLower(query))
    || Includes(ToLower(e.issue.description), ToLower(query))
  }

  /** The local half of `handleSearch`: `None` when the query trims to nothing
      (the handler returns at once), otherwise the matching entries. */
  function LocalSearch(history: seq<AnalysisHistoryEntry>, query: string): Option<seq<AnalysisHistoryEntry>> {
    if Trim(query) == [] then None
    else Some(Seqs.Filter(history, e => MatchesQuery(query, e)))
  }

  /** A blank or white-space query does nothing; any other gives the matching
      entries of the history, in history order, none missing. */
  lemma LocalSearchSpec(history: seq<AnalysisHistoryEntry>, query: string)
    ensures LocalSearch(history, query).None? <==> AllWhiteSpace(query)
    ensures LocalSearch(history, query).Some? ==>
      var found := LocalSearch(history, query).value;
      && Seqs.IsSubsequence(found, history)
      && (forall e :: e in found ==> MatchesQuery(query, e))
      && (forall e :: e in history && MatchesQuery(query, e) ==> e in found)
      && (forall e :: multiset(found)[e] == if MatchesQuery(query, e) then multiset(history)[e] else 0)
  {
    TrimEmptyIffBlank(query);
    Seqs.FilterSpec(history, e => MatchesQuery(query, e));
  }
}
