/** The transcript state of components/AIChatbot.tsx: an append-only list of
    messages and a `loading` flag. A send appends the question at once and
    schedules the reply on a timer; here the timer is the separate step
    `ReplyArrives`, and the clock reading `Date.now()` is a parameter. */
module Chatbot {
  import opened Text
  import opened Responder

  datatype Sender = User | Ai

  /** A message id: the literal "1" of the greeting, or the decimal text of a
      clock reading in milliseconds. Clock ids are not unique. */
  datatype MessageId = Literal(name: string) | Clock(millis: int)

  datatype Message = Message(id: MessageId, text: string, sender: Sender, timestamp: int, imageUrl: Option<string>)

  const Greeting: string := "Hello! How can I help with your plant today?"
  const PhotoText: string := "I've uploaded another photo of my plant."
  const PhotoUrl: string := "https://images.unsplash.com/photo-1591857177580-dc82b9ac4e1e?w=400&q=80"

  /** The default `initialMessages`: one greeting from the assistant, stamped
      an hour before the component is created at time `now`. */
  function DefaultInitialMessages(now: int): (r: seq<Message>)
    ensures |r| == 1 && r[0].sender == Ai && r[0].imageUrl == None
    ensures r[0].timestamp < now
  {
    [Message(Literal("1"), Greeting, Ai, now - 3600000, None)]
  }

  /** The questions of a stretch of transcript: the user's messages that carry
      no photo. */
  function Questions(log: seq<Message>): (r: seq<string>)
    ensures |r| <= |log|
  {
    if log == [] then []
    else
      var m := log[|log| - 1];
      Questions(log[..|log| - 1]) + (if m.sender == User && m.imageUrl == None then [m.text] else [])
  }

  /** The texts of the assistant's messages in a stretch of transcript. */
  function Replies(log: seq<Message>): (r: seq<string>)
    ensures |r| <= |log|
  {
    if log == [] then []
    else
      var m := log[|log| - 1];
      Replies(log[..|log| - 1]) + (if m.sender == Ai then [m.text] else [])
  }

  /** The replies a responder gives to a run of questions, in order. */
  function Answers(questions: seq<string>, respond: string -> string): (r: seq<string>)
    ensures |r| == |questions|
  {
    if questions == [] then []
    else Answers(questions[..|questions| - 1], respond) + [respond(questions[|questions| - 1])]
  }

  /** The `i`-th answer is the reply to the `i`-th question. */
  lemma {:induction false} AnswerAt(questions: seq<string>, respond: string -> string, i: nat)
    requires i < |questions|
    ensures Answers(questions, respond)[i] == respond(questions[i])
    decreases |questions|
  {
    if i < |questions| - 1 {
      AnswerAt(questions[..|questions| - 1], respond, i);
    }
  }

  /** Appending one message adds its text to the questions exactly when it is
      a photo-less user message, and leaves the earlier ones in place. */
  lemma {:induction false} QuestionsAppend(log: seq<Message>, m: Message)
    ensures Questions(log + [m]) == Questions(log) + (if m.sender == User && m.imageUrl == None then [m.text] else [])
  {
    assert (log + [m])[..|log|] == log;
  }

  /** Appending one message adds its text to the replies exactly when the
      assistant sent it. */
  lemma {:induction false} RepliesAppend(log: seq<Message>, m: Message)
    ensures Replies(log + [m]) == Replies(log) + (if m.sender == Ai then [m.text] else [])
  {
    assert (log + [m])[..|log|] == log;
  }

  /** The answers to one more question extend the earlier answers. */
  lemma AnswersAppend(questions: seq<string>, q: string, respond: string -> string)
    ensures Answers(questions + [q], respond) == Answers(questions, respond) + [respond(q)]
  {
    assert (questions + [q])[..|questions|] == questions;
  }

  /** The invariant of a transcript stretch `log`: the questions asked in it
      are the `answered` ones followed by the `pending` ones, and the
      assistant's messages in it are exactly the replies to the answered
      questions, in order. */
  ghost predicate Consistent(log: seq<Message>, pending: seq<string>, answered: nat, respond: string -> string)
  {
    var asked := Questions(log);
    answered + |pending| == |asked| && pending == asked[answered..]
    && Replies(log) == Answers(asked[..answered], respond)
  }

  /** Asking a question keeps the transcript consistent, with the question
      waiting last in line. */
  lemma AskKeepsConsistent(log: seq<Message>, pending: seq<string>, answered: nat, respond: string -> string, m: Message)
    requires Consistent(log, pending, answered, respond)
    requires m.sender == User && m.imageUrl == None
    ensures Consistent(log + [m], pending + [m.text], answered, respond)
  {
    QuestionsAppend(log, m);
    RepliesAppend(log, m);
    var asked := Questions(log);
    assert Questions(log + [m]) == asked + [m.text];
    assert (asked + [m.text])[..answered] == asked[..answered];
    assert (asked + [m.text])[answered..] == asked[answered..] + [m.text];
  }

  /** The reply to the oldest waiting question keeps the transcript
      consistent, with that question now answered. */
  lemma ReplyKeepsConsistent(log: seq<Message>, pending: seq<string>, answered: nat, respond: string -> string, m: Message)
    requires Consistent(log, pending, answered, respond) && pending != []
    requires m.sender == Ai && m.text == respond(pending[0])
    ensures Consistent(log + [m], pending[1..], answered + 1, respond)
  {
    QuestionsAppend(log, m);
    RepliesAppend(log, m);
    var asked := Questions(log);
    assert Questions(log + [m]) == asked;
    assert asked[answered] == pending[0];
    assert asked[..answered + 1] == asked[..answered] + [pending[0]];
    AnswersAppend(asked[..answered], pending[0], respond);
  }

  /** A photo is neither a question nor a reply: the transcript stays
      consistent with nothing new waiting. */
  lemma PhotoKeepsConsistent(log: seq<Message>, pending: seq<string>, answered: nat, respond: string -> string, m: Message)
    requires Consistent(log, pending, answered, respond)
    requires m.sender == User && m.imageUrl != None
    ensures Consistent(log + [m], pending, answered, respond)
  {
    QuestionsAppend(log, m);
    RepliesAppend(log, m);
    assert Questions(log + [m]) == Questions(log);
    assert Replies(log + [m]) == Replies(log);
  }

  /** The chat screen's state. */
  class Chat {
    const plantName: string
    /** `getAIResponse(·, plantName)`, fixed when the screen is created. */
    const respond: string -> string
    var messages: seq<Message>
    var loading: bool
    /** Questions whose reply timer has not fired yet. Every timer has the
        same delay, so they fire in the order they were set. */
    var pending: seq<string>
    ghost var initial: seq<Message>
    ghost var answered: nat

    /** The initial messages stay a prefix of the transcript, and what
        follows them is consistent. */
    ghost predicate Valid()
      reads this
    {
      |initial| <= |messages| && messages[..|initial|] == initial
      && Consistent(messages[|initial|..], pending, answered, respond)
    }

    constructor (plantName: string, initialMessages: seq<Message>, isLoading: bool)
      ensures Valid()
      ensures forall q :: respond(q) == Respond(q, plantName)
      ensures this.plantName == plantName && messages == initialMessages
      ensures loading == isLoading && pending == []
    {
      this.plantName := plantName;
      respond := q => Respond(q, plantName);
      messages := initialMessages;
      loading := isLoading;
      pending := [];
      initial := initialMessages;
      answered := 0;
      assert initialMessages[|initialMessages|..] == [];
    }

    /** `handleSendMessage(text)`: append the user's message and start the
        reply timer. */
    method SendMessage(text: string, now: int)
      requires Valid()
      modifies this
      ensures Valid()
      ensures messages == old(messages) + [Message(Clock(now), text, User, now, None)]
      ensures loading && pending == old(pending) + [text]
    {
      var m := Message(Clock(now), text, User, now, None);
      ghost var log := messages[|initial|..];
      AskKeepsConsistent(log, pending, answered, respond, m);
      messages := messages + [m];
      loading := true;
      pending := pending + [text];
      assert messages[|initial|..] == log + [m];
      assert messages[..|initial|] == initial;
    }

    /** The reply timer of the oldest pending question fires at time `now`:
        append the assistant's answer and clear `loading`, even when other
        questions are still waiting. */
    method ReplyArrives(now: int)
      requires Valid() && pending != []
      modifies this
      ensures Valid()
      ensures messages == old(messages) + [Message(Clock(now + 1), respond(old(pending)[0]), Ai, now, None)]
      ensures !loading && pending == old(pending)[1..]
    {
      var m := Message(Clock(now + 1), respond(pending[0]), Ai, now, None);
      ghost var log := messages[|initial|..];
      ReplyKeepsConsistent(log, pending, answered, respond, m);
      messages := messages + [m];
      loading := false;
      pending := pending[1..];
      answered := answered + 1;
      assert messages[|initial|..] == log + [m];
      assert messages[..|initial|] == initial;
    }

    /** `handleQuickReply(buttonId)`: send the button's canned question. */
    method QuickReply(buttonId: string, now: int)
      requires Valid()
      modifies this
      ensures Valid()
      ensures messages == old(messages) + [Message(Clock(now), QuickReplyQuestion(buttonId, plantName), User, now, None)]
      ensures loading && pending == old(pending) + [QuickReplyQuestion(buttonId, plantName)]
    {
      SendMessage(QuickReplyQuestion(buttonId, plantName), now);
    }

    /** `handleUploadPhoto`: append a user message carrying the photo; no
        reply is scheduled and `loading` is left alone. */
    method UploadPhoto(now: int)
      requires Valid()
      modifies this
      ensures Valid()
      ensures messages == old(messages) + [Message(Clock(now), PhotoText, User, now, Some(PhotoUrl))]
      ensures loading == old(loading) && pending == old(pending)
    {
      var m := Message(Clock(now), PhotoText, User, now, Some(PhotoUrl));
      ghost var log := messages[|initial|..];
      PhotoKeepsConsistent(log, pending, answered, respond, m);
      messages := messages + [m];
      assert messages[|initial|..] == log + [m];
      assert messages[..|initial|] == initial;
    }
  }

  /** `loading` is one flag for all pending replies: send a question, press a
      quick reply before the answer lands, and the first answer clears
      `loading` while the second question still waits. */
  method LoadingClearsEarly(plantName: string, question: string, buttonId: string, now: int)
    returns (loading: bool, waiting: seq<string>, lastReply: string)
    ensures !loading && waiting == [QuickReplyQuestion(buttonId, plantName)]
    ensures lastReply == Respond(question, plantName)
  {
    var chat := new Chat(plantName, DefaultInitialMessages(now), false);
    chat.SendMessage(question, now);
    chat.QuickReply(buttonId, now + 200);
    chat.ReplyArrives(now + 1500);
    loading, waiting := chat.loading, chat.pending;
    lastReply := chat.messages[|chat.messages| - 1].text;
  }
}
