/**
 * The progress summary on a project's card (src/components/ProjectCard.tsx):
 * feedback counts over all takes, the progress percentage and the colours
 * and icon derived from them.
 */
module ProjectCard {

  import opened Types
  import opened Seqs
  import opened JsMath

  function IsResolved(f: Feedback): bool {
    f.resolved
  }

  /** Every feedback item of every take is resolved. */
  predicate AllResolved(takes: seq<Take>) {
    forall i, j :: 0 <= i < |takes| && 0 <= j < |FeedbackOf(takes[i])| ==> FeedbackOf(takes[i])[j].resolved
  }

  /** No feedback item of any take is resolved. */
  predicate NoneResolved(takes: seq<Take>) {
    forall i, j :: 0 <= i < |takes| && 0 <= j < |FeedbackOf(takes[i])| ==> !FeedbackOf(takes[i])[j].resolved
  }

  /** `totalFeedbackItems`: the feedback lists' lengths summed, an absent list counting 0. */
  function TotalFeedback(takes: seq<Take>): (n: nat)
    ensures n == 0 <==> forall i :: 0 <= i < |takes| ==> FeedbackOf(takes[i]) == []
  {
    if takes == [] then 0 else |FeedbackOf(takes[0])| + TotalFeedback(takes[1..])
  }

  /** `resolvedFeedbackItems`: the resolved feedback items over all takes. */
  function ResolvedFeedback(takes: seq<Take>): (n: nat)
    ensures n <= TotalFeedback(takes)
    ensures n == TotalFeedback(takes) <==> AllResolved(takes)
    ensures n == 0 <==> NoneResolved(takes)
  {
    if takes == [] then 0
    else
      var here := FeedbackOf(takes[0]);
      FilterLengthFull(here, IsResolved);
      FilterLengthEmpty(here, IsResolved);
      ResolvedSplit(takes);
      |Filter(here, IsResolved)| + ResolvedFeedback(takes[1..])
  }

  /** Whether all or none of the feedback is resolved splits into the first take and the rest. */
  lemma ResolvedSplit(takes: seq<Take>)
    requires takes != []
    ensures AllResolved(takes) <==>
      (forall j :: 0 <= j < |FeedbackOf(takes[0])| ==> IsResolved(FeedbackOf(takes[0])[j])) && AllResolved(takes[1..])
    ensures NoneResolved(takes) <==>
      (forall j :: 0 <= j < |FeedbackOf(takes[0])| ==> !IsResolved(FeedbackOf(takes[0])[j])) && NoneResolved(takes[1..])
  {
    assert forall i :: 1 <= i < |takes| ==> takes[i] == takes[1..][i - 1];
  }

  /**
   * `progressPercentage`: the share of resolved feedback rounded to a whole
   * percent; without any feedback, 50 once a take exists and 0 before.
   */
  function Progress(takes: seq<Take>): (p: int)
    ensures 0 <= p <= 100
    ensures TotalFeedback(takes) == 0 ==> p == (if takes == [] then 0 else 50)
    ensures 0 < TotalFeedback(takes) && AllResolved(takes) ==> p == 100
    ensures 0 < TotalFeedback(takes) && NoneResolved(takes) ==> p == 0
  {
    var total := TotalFeedback(takes);
    var resolved := ResolvedFeedback(takes);
    if total > 0 then
      PercentBounds(resolved, total);
      Round(resolved as real / total as real * 100.0)
    else if |takes| > 0 then 50
    else 0
  }

  lemma PercentBounds(resolved: nat, total: nat)
    requires 0 < total && resolved <= total
    ensures 0 <= Round(resolved as real / total as real * 100.0) <= 100
    ensures resolved == total ==> Round(resolved as real / total as real * 100.0) == 100
    ensures resolved == 0 ==> Round(resolved as real / total as real * 100.0) == 0
  {
    var ratio := resolved as real / total as real;
    assert ratio * total as real == resolved as real;
    assert 0.0 <= ratio <= 1.0;
    if resolved == total {
      WholeShare(total as real);
    }
    if resolved == 0 {
      assert ratio * 100.0 == 0.0;
    }
  }

  /** A quantity divided by itself is the whole, 100 percent. */
  lemma WholeShare(t: real)
    requires 0.0 < t
    ensures t / t * 100.0 == 100.0
  {
    assert t / t == 1.0;
  }

  /**
   * The bar can read 100% while the icon still warns: with at least 200
   * items and one left open, the share rounds up to 100.
   */
  lemma FullBarWithOpenFeedback(takes: seq<Take>)
    requires 200 <= TotalFeedback(takes) && ResolvedFeedback(takes) + 1 == TotalFeedback(takes)
    ensures Progress(takes) == 100 && BarColor(Progress(takes)) == "bg-green-500"
    ensures FeedbackIcon(takes) == Some(Alert)
  {
    NearlyFullRoundsUp(ResolvedFeedback(takes), TotalFeedback(takes));
  }

  lemma NearlyFullRoundsUp(resolved: nat, total: nat)
    requires 200 <= total && resolved + 1 == total
    ensures Round(resolved as real / total as real * 100.0) == 100
  {
    var t := total as real;
    var ratio := resolved as real / t;
    assert ratio * t == t - 1.0;
    assert (1.0 - ratio) * t == 1.0;
    assert 1.0 - ratio <= 0.005;
  }

  /** The bar colour: green when full, blue above 30, amber otherwise. */
  function BarColor(progress: int): (c: string)
    ensures c == "bg-green-500" <==> 100 <= progress
    ensures c == "bg-blue-500" <==> 30 < progress < 100
    ensures c == "bg-amber-500" <==> progress <= 30
  {
    if 100 <= progress then "bg-green-500"
    else if 30 < progress then "bg-blue-500"
    else "bg-amber-500"
  }

  datatype Icon = Check | Alert

  /** The feedback icon: none without feedback, a check once all of it is resolved. */
  function FeedbackIcon(takes: seq<Take>): (icon: Option<Icon>)
    ensures icon.None? <==> TotalFeedback(takes) == 0
    ensures icon == Some(Check) <==> 0 < TotalFeedback(takes) && AllResolved(takes)
    ensures icon == Some(Alert) <==> 0 < TotalFeedback(takes) && !AllResolved(takes)
  {
    if TotalFeedback(takes) == 0 then None
    else if ResolvedFeedback(takes) == TotalFeedback(takes) then Some(Check)
    else Some(Alert)
  }

  /** The check icon and a green bar agree whenever the check is shown. */
  lemma CheckIconMeansFullBar(takes: seq<Take>)
    requires FeedbackIcon(takes) == Some(Check)
    ensures BarColor(Progress(takes)) == "bg-green-500"
  {
  }

  /** `getStatusColor`. */
  function StatusColor(status: ProjectStatus): (c: string)
    ensures c == "bg-gray-200 text-gray-800" <==> status == NotStarted
    ensures c == "bg-blue-100 text-blue-800" <==> status == InProgress
    ensures c == "bg-amber-100 text-amber-800" <==> status == NeedsWork
    ensures c == "bg-green-100 text-green-800" <==> status == Mastered
  {
    match status
    case NotStarted => "bg-gray-200 text-gray-800"
    case InProgress => "bg-blue-100 text-blue-800"
    case NeedsWork => "bg-amber-100 text-amber-800"
    case Mastered => "bg-green-100 text-green-800"
  }

  /** The four statuses get four different colours. */
  lemma StatusColorsDistinct(a: ProjectStatus, b: ProjectStatus)
    ensures StatusColor(a) == StatusColor(b) <==> a == b
  {
  }
}
