/**
 * The intent classifier as the SMS handler sees it. The language model itself
 * is an oracle: what it answered is an input, a `ClassifierOutcome`. Modelled
 * here are the four function calls it may return, the fallback that a thrown
 * error turns into, and the conversation-history window sent with the request.
 */
module Classifier {
  import opened Wrappers
  import opened Domain
  import opened Ordering

  /** The four tools offered to the classifier, each with its arguments. */
  datatype FunctionCall =
    | NotifyTeamArrival(spot: string, customerPhone: string, orderNumber: string, responseMessage: string)
    | CallStoreManager(complaintReason: string, customerPhone: string, orderNumber: string,
                       spotIfKnown: Option<string>, responseMessage: string)
    | RequestReview(orderNumber: string, responseMessage: string)
    | HandleGeneral(responseMessage: string)

  /**
   * An item of the classifier's `output`: a function call, whose arguments
   * either parse into one of the four calls or make `JSON.parse` throw
   * (None), or any other kind of item.
   */
  datatype OutputItem = FunctionCallItem(arguments: Option<FunctionCall>) | OtherItem

  /** What the classifier request produced: its output items, or a thrown error (network or API). */
  datatype ClassifierOutcome = Answered(output: seq<OutputItem>) | Threw

  /** The index of the first function-call item. */
  function FirstFunctionCall(output: seq<OutputItem>): (r: Option<nat>)
    ensures r.None? <==> forall i :: 0 <= i < |output| ==> !output[i].FunctionCallItem?
    ensures r.Some? ==> r.value < |output| && output[r.value].FunctionCallItem?
    ensures r.Some? ==> forall i :: 0 <= i < r.value ==> !output[i].FunctionCallItem?
  {
    if output == [] then None
    else if output[0].FunctionCallItem? then Some(0)
    else
      match FirstFunctionCall(output[1..])
      case None => None
      case Some(i) => Some(i + 1)
  }

  /**
   * `processMessageWithAI`: the first function-call item decides; an error,
   * thrown by the request or by parsing that item's arguments, becomes
   * `handle_general` with the fixed greeting; an output without any
   * function call yields `undefined` (None).
   */
  function ProcessMessageWithAI(outcome: ClassifierOutcome): Option<FunctionCall> {
    match outcome
    case Threw => Some(HandleGeneral(FallbackGreeting))
    case Answered(output) =>
      match FirstFunctionCall(output)
      case None => None
      case Some(i) => if output[i].arguments.Some? then output[i].arguments else Some(HandleGeneral(FallbackGreeting))
  }

  /** The scan of `response.output` as the handler performs it. */
  method ClassifyMessage(outcome: ClassifierOutcome) returns (r: Option<FunctionCall>)
    ensures r == ProcessMessageWithAI(outcome)
  {
    if outcome.Threw? {
      return Some(HandleGeneral(FallbackGreeting));
    }
    var output := outcome.output;
    var i := 0;
    while i < |output|
      invariant 0 <= i <= |output|
      invariant forall j :: 0 <= j < i ==> !output[j].FunctionCallItem?
    {
      if output[i].FunctionCallItem? {
        if output[i].arguments.None? {
          return Some(HandleGeneral(FallbackGreeting));
        }
        return output[i].arguments;
      }
      i := i + 1;
    }
    return None;
  }

  /** `aiResult.args.parking_spot`: absent for the tools that have no such argument. */
  function ParkingSpotArg(call: FunctionCall): Option<string> {
    match call
    case NotifyTeamArrival(spot, _, _, _) => Some(spot)
    case CallStoreManager(_, _, _, spot, _) => spot
    case _ => None
  }

  const HistoryWindow: nat := 5
  const NoHistory: string := "No previous conversation history"

  function CreatedAt(t: Turn): int {
    t.createdAt
  }

  /** The phone's turns in log order: each of them as often as it was logged, and no other turn. */
  function TurnsOf(conversations: seq<Turn>, phone: Phone): (r: seq<Turn>)
    ensures forall t :: t in r <==> t in conversations && t.phone == phone
    ensures forall t :: multiset(r)[t] == if t.phone == phone then multiset(conversations)[t] else 0
  {
    if conversations == [] then []
    else
      assert conversations == [conversations[0]] + conversations[1..];
      (if conversations[0].phone == phone then [conversations[0]] else []) + TurnsOf(conversations[1..], phone)
  }

  /**
   * The five newest turns of the phone, oldest first (`ORDER BY created_at
   * DESC LIMIT 5`, then `reverse()`).
   */
  function RecentTurns(conversations: seq<Turn>, phone: Phone): (r: seq<Turn>)
  {
    var all := SortBy(TurnsOf(conversations, phone), CreatedAt);
    var k := if |all| < HistoryWindow then |all| else HistoryWindow;
    all[|all| - k..]
  }

  /** The last `k` elements of a sorted list are sorted, and every element left out comes no later than the first kept one. */
  lemma SortedTail<T>(all: seq<T>, key: T -> int, k: nat)
    requires SortedBy(all, key)
    requires 0 < k <= |all|
    ensures SortedBy(all[|all| - k..], key)
    ensures forall x :: x in all && x !in all[|all| - k..] ==> key(x) <= key(all[|all| - k])
  {
    var tail := all[|all| - k..];
    forall i, j | 0 <= i < j < |tail| ensures key(tail[i]) <= key(tail[j]) {
      assert tail[i] == all[|all| - k + i] && tail[j] == all[|all| - k + j];
    }
    forall x | x in all && x !in tail ensures key(x) <= key(all[|all| - k]) {
      var idx :| 0 <= idx < |all| && all[idx] == x;
    }
  }

  /** The turns shown are turns of the phone. */
  lemma RecentTurnsAreThePhones(conversations: seq<Turn>, phone: Phone)
    ensures forall t :: t in RecentTurns(conversations, phone) ==> t in conversations && t.phone == phone
  {
    var all := SortBy(TurnsOf(conversations, phone), CreatedAt);
    var r := RecentTurns(conversations, phone);
    forall t | t in r ensures t in conversations && t.phone == phone {
      assert t in all;
      assert t in multiset(all);
    }
  }

  lemma RecentTurnsAreTheNewest(conversations: seq<Turn>, phone: Phone)
    ensures var r := RecentTurns(conversations, phone);
      && |r| == (if |TurnsOf(conversations, phone)| < HistoryWindow then |TurnsOf(conversations, phone)| else HistoryWindow)
      && SortedBy(r, CreatedAt)
      && (forall t :: t in r ==> t in conversations && t.phone == phone)
      && (forall t :: t in conversations && t.phone == phone && t !in r ==> |r| > 0 && t.createdAt <= r[0].createdAt)
  {
    var mine := TurnsOf(conversations, phone);
    var all := SortBy(mine, CreatedAt);
    var r := RecentTurns(conversations, phone);
    RecentTurnsAreThePhones(conversations, phone);
    if all != [] {
      var k := |r|;
      assert r == all[|all| - k..];
      SortedTail(all, CreatedAt, k);
      forall t | t in conversations && t.phone == phone && t !in r
        ensures t.createdAt <= r[0].createdAt
      {
        assert t in multiset(mine);
        assert t in all;
      }
    } else {
      assert mine == [];
    }
  }

  function HistoryLine(t: Turn): string {
    "Customer: \"" + t.messageContent + "\" → AI: \"" + t.aiResponse + "\""
  }

  function JoinLines(lines: seq<string>): string {
    if lines == [] then ""
    else if |lines| == 1 then lines[0]
    else lines[0] + "\n" + JoinLines(lines[1..])
  }

  /** A text containing `pat` still contains it with anything put in front. */
  lemma {:induction false} HasSubstringAfter(a: string, b: string, pat: string)
    requires HasSubstring(b, pat)
    ensures HasSubstring(a + b, pat)
    decreases |a|
  {
    if a != [] {
      assert (a + b)[1..] == a[1..] + b;
      HasSubstringAfter(a[1..], b, pat);
    } else {
      assert a + b == b;
    }
  }

  /** The joined text starts with the first line and contains every line. */
  lemma {:induction false} JoinLinesShowsEvery(lines: seq<string>)
    requires lines != []
    ensures |lines[0]| <= |JoinLines(lines)| && JoinLines(lines)[..|lines[0]|] == lines[0]
    ensures forall i :: 0 <= i < |lines| ==> HasSubstring(JoinLines(lines), lines[i])
    decreases |lines|
  {
    var s := JoinLines(lines);
    HasSubstringAt(s, lines[0], 0);
    if |lines| > 1 {
      JoinLinesShowsEvery(lines[1..]);
      forall i | 1 <= i < |lines| ensures HasSubstring(s, lines[i]) {
        assert lines[i] == lines[1..][i - 1];
        HasSubstringAfter(lines[0] + "\n", JoinLines(lines[1..]), lines[i]);
      }
    }
  }

  /**
   * The history text put into the classifier prompt: the fixed "no history"
   * text exactly when the phone has no turn, otherwise one line per turn shown.
   */
  function HistoryContext(conversations: seq<Turn>, phone: Phone): (r: string)
    ensures r == NoHistory <==> RecentTurns(conversations, phone) == []
    ensures forall t :: t in RecentTurns(conversations, phone) ==> HasSubstring(r, HistoryLine(t))
  {
    var recent := RecentTurns(conversations, phone);
    if recent == [] then NoHistory
    else
      var lines := seq(|recent|, i requires 0 <= i < |recent| => HistoryLine(recent[i]));
      HistoryLinesShown(recent, lines);
      JoinLines(lines)
  }

  /** The lines of a non-empty history are all in the text, which is not the "no history" text. */
  lemma HistoryLinesShown(recent: seq<Turn>, lines: seq<string>)
    requires recent != [] && |lines| == |recent|
    requires forall i :: 0 <= i < |recent| ==> lines[i] == HistoryLine(recent[i])
    ensures JoinLines(lines) != NoHistory
    ensures forall t :: t in recent ==> HasSubstring(JoinLines(lines), HistoryLine(t))
  {
    JoinLinesShowsEvery(lines);
    assert JoinLines(lines)[0] == lines[0][0] == 'C';
    forall t | t in recent ensures HasSubstring(JoinLines(lines), HistoryLine(t)) {
      var i :| 0 <= i < |recent| && recent[i] == t;
      assert lines[i] == HistoryLine(t);
    }
  }
}
