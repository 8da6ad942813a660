/** The AI chat screen's conversation state (phishguard/app/ai.tsx): the text being
    typed, whether a question is in flight, and the append-only list of turns. */
module Chat {
  import opened Wrappers
  import Text

  datatype Speaker = User | Assistant

  /** One rendered turn: `{ id, role, text }`. */
  datatype Msg = Msg(id: string, role: Speaker, text: string)

  /** What the awaited `askAI(q)` delivered: the `answer` of its response, or a thrown error. */
  datatype AskOutcome = Answered(answer: string) | Failed

  const GreetingId: string := "sys-hello"
  const GreetingText: string :=
    "Hi! I\U{2019}m your PhishGuard assistant. Ask me about phishing red flags, suspicious links, OTP scams, and more."
  const ApologyText: string := "Sorry\U{2014}couldn\U{2019}t reach the AI right now. Please try again."
  const Greeting: Msg := Msg(GreetingId, Assistant, GreetingText)

  /** The optimistic user turn: the question, under an id `u-` that carries the
      `Date.now()` it was stamped with. */
  function UserTurn(now: nat, question: string): (m: Msg)
    ensures m.role == User && m.text == question
    ensures Text.HasPrefix(m.id, "u-") && Text.ParseInt(m.id[2..]) == Some(now)
  {
    var id := "u-" + Text.IntString(now);
    assert id[..2] == "u-" && id[2..] == Text.IntString(now);
    Text.IntRoundTrip(now);
    Msg(id, User, question)
  }

  /** The assistant turn appended once the request settles: the answer, or the fixed
      apology when the request threw, under an id `a-` carrying its time. */
  function ReplyTurn(now: nat, outcome: AskOutcome): (m: Msg)
    ensures m.role == Assistant
    ensures m.text == (if outcome.Answered? then outcome.answer else ApologyText)
    ensures Text.HasPrefix(m.id, "a-") && Text.ParseInt(m.id[2..]) == Some(now)
  {
    var id := "a-" + Text.IntString(now);
    assert id[..2] == "a-" && id[2..] == Text.IntString(now);
    Text.IntRoundTrip(now);
    Msg(id, Assistant,
        match outcome
        case Answered(answer) => answer
        case Failed => ApologyText)
  }

  /** Turn ids never collide across kinds, nor with the greeting, and two turns of the
      same kind share an id exactly when they were stamped at the same millisecond. */
  lemma TurnIdsDistinct(t1: nat, t2: nat, q1: string, q2: string, o1: AskOutcome, o2: AskOutcome)
    ensures UserTurn(t1, q1).id != ReplyTurn(t2, o2).id
    ensures UserTurn(t1, q1).id != GreetingId && ReplyTurn(t1, o1).id != GreetingId
    ensures UserTurn(t1, q1).id == UserTurn(t2, q2).id <==> t1 == t2
    ensures ReplyTurn(t1, o1).id == ReplyTurn(t2, o2).id <==> t1 == t2
  {
    assert UserTurn(t1, q1).id[0] == 'u' && ReplyTurn(t2, o2).id[0] == 'a';
    assert ReplyTurn(t1, o1).id[0] == 'a' && GreetingId[0] == 's';
  }

  /** The guard at the top of `onAsk`: the trimmed question, when it is non-empty and
      nothing is in flight. */
  function AcceptedQuestion(input: string, loading: bool): (q: Option<string>)
    ensures q.Some? <==> !loading && !Text.AllSpace(input)
    ensures q.Some? ==> q.value == Text.Trim(input) && q.value != [] && Text.IsTrimmed(q.value)
  {
    var t := Text.Trim(input);
    if t == [] || loading then None else Some(t)
  }

  /** Turn `i` (past the greeting) of a conversation whose accepted questions are `asked`:
      odd positions hold the user's trimmed questions in order, even positions replies. */
  ghost predicate TurnAt(m: Msg, i: nat, asked: seq<string>) {
    if i % 2 == 1 then
      i / 2 < |asked| && m.role == User && m.text == asked[i / 2] && Text.HasPrefix(m.id, "u-")
    else
      m.role == Assistant && Text.HasPrefix(m.id, "a-")
  }

  /** The conversation invariant on plain values: the greeting comes first; then a user
      turn and its reply per accepted question, the last reply missing exactly while a
      request is in flight; every accepted question is trimmed and non-empty. */
  ghost predicate WellFormed(messages: seq<Msg>, asked: seq<string>, loading: bool) {
    && |messages| == 2 * |asked| + (if loading then 0 else 1)
    && |messages| >= 1
    && messages[0] == Greeting
    && (forall i :: 1 <= i < |messages| ==> TurnAt(messages[i], i, asked))
    && (forall k :: 0 <= k < |asked| ==> asked[k] != [] && Text.IsTrimmed(asked[k]))
  }

  lemma TurnAtExtended(m: Msg, i: nat, asked: seq<string>, q: string)
    requires TurnAt(m, i, asked)
    ensures TurnAt(m, i, asked + [q])
  {
    if i % 2 == 1 {
      assert (asked + [q])[i / 2] == asked[i / 2];
    }
  }

  /** Appending an accepted question's user turn starts a request. */
  lemma SubmitKeepsWellFormed(messages: seq<Msg>, asked: seq<string>, now: nat, q: string)
    requires WellFormed(messages, asked, false)
    requires q != [] && Text.IsTrimmed(q)
    ensures WellFormed(messages + [UserTurn(now, q)], asked + [q], true)
  {
    var messages', asked' := messages + [UserTurn(now, q)], asked + [q];
    forall i | 1 <= i < |messages'| ensures TurnAt(messages'[i], i, asked') {
      if i < |messages| {
        TurnAtExtended(messages[i], i, asked, q);
      } else {
        assert i == 2 * |asked| + 1;
        assert messages'[i].id[..2] == "u-";
      }
    }
  }

  /** Appending the reply ends the request. */
  lemma ReceiveKeepsWellFormed(messages: seq<Msg>, asked: seq<string>, reply: Msg)
    requires WellFormed(messages, asked, true)
    requires reply.role == Assistant && Text.HasPrefix(reply.id, "a-")
    ensures WellFormed(messages + [reply], asked, false)
  {
    var messages' := messages + [reply];
    forall i | 1 <= i < |messages'| ensures TurnAt(messages'[i], i, asked) {
      if i < |messages| {
        assert messages'[i] == messages[i];
      }
    }
  }

  class Conversation {
    var input: string
    var loading: bool
    var messages: seq<Msg>
    /** The questions accepted so far, in order. */
    ghost var asked: seq<string>

    ghost predicate Valid()
      reads this
    {
      WellFormed(messages, asked, loading)
    }

    /** The screen's initial state. */
    constructor ()
      ensures Valid()
      ensures input == "" && !loading && messages == [Greeting] && asked == []
    {
      input := "";
      loading := false;
      messages := [Greeting];
      asked := [];
    }

    /** `onChangeText={setInput}`: typing replaces the input and nothing else. */
    method Edit(text: string)
      requires Valid()
      modifies this`input
      ensures Valid()
      ensures input == text
    {
      input := text;
    }

    /** `onAsk` up to its `await`: an accepted question is appended as a user turn,
        the input is cleared and `loading` is set; otherwise nothing changes. */
    method Submit(now: nat) returns (q: Option<string>)
      requires Valid()
      modifies this
      ensures Valid()
      ensures q == AcceptedQuestion(old(input), old(loading))
      ensures q.None? ==> input == old(input) && loading == old(loading)
                          && messages == old(messages) && asked == old(asked)
      ensures q.Some? ==> && messages == old(messages) + [UserTurn(now, q.value)]
                          && input == "" && loading
                          && asked == old(asked) + [q.value]
    {
      q := AcceptedQuestion(input, loading);
      if q.None? {
        return;
      }
      SubmitKeepsWellFormed(messages, asked, now, q.value);
      var userMsg := UserTurn(now, q.value);
      messages := messages + [userMsg];
      asked := asked + [q.value];
      input := "";
      loading := true;
    }

    /** `onAsk` after its `await`: exactly one assistant turn (the answer, or the fixed
        apology) is appended and `loading` is cleared; the input is left as typed. */
    method Receive(now: nat, outcome: AskOutcome)
      requires Valid() && loading
      modifies this`messages, this`loading
      ensures Valid()
      ensures messages == old(messages) + [ReplyTurn(now, outcome)]
      ensures !loading
    {
      var reply := ReplyTurn(now, outcome);
      ReceiveKeepsWellFormed(messages, asked, reply);
      messages := messages + [reply];
      loading := false;
    }

    /** The whole of `onAsk`, the request settling with `outcome`: an accepted question
        grows the conversation by exactly a user turn and its reply. */
    method OnAsk(sentAt: nat, repliedAt: nat, outcome: AskOutcome) returns (q: Option<string>)
      requires Valid()
      modifies this
      ensures Valid()
      ensures q == AcceptedQuestion(old(input), old(loading))
      ensures q.None? ==> input == old(input) && loading == old(loading) && messages == old(messages)
      ensures q.Some? ==> && messages == old(messages) + [UserTurn(sentAt, q.value), ReplyTurn(repliedAt, outcome)]
                          && |messages| == |old(messages)| + 2
                          && input == "" && !loading
    {
      q := Submit(sentAt);
      if q.Some? {
        Receive(repliedAt, outcome);
      }
    }
  }
}
