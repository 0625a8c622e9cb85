/** The specialist chat of src/components/ChatInterface.tsx: a choice of AI
    doctor, lawyer or psychiatrist, a greeting per choice, and a mock reply
    one second after each message. Message ids are the numbers whose
    `toString()` the source stores. The one-second timer is a queue of
    pending replies resolved by `ResolveReply`. */
module SpecialistChat {
  import opened Js

  datatype Specialist = Doctor | Lawyer | Psychiatrist

  /** The key the source interpolates into its texts. */
  function Key(s: Specialist): string {
    match s
    case Doctor => "doctor"
    case Lawyer => "lawyer"
    case Psychiatrist => "psychiatrist"
  }

  /** Different specialists have different keys. */
  lemma KeyInjective(a: Specialist, b: Specialist)
    requires Key(a) == Key(b)
    ensures a == b
  {
  }

  datatype Entry = Entry(id: nat, content: string, isUser: bool)

  /** A reply whose timer is running: the text and specialist captured when
      the message was sent. */
  datatype PendingReply = PendingReply(question: string, specialist: Specialist)

  const GreetingOpening: string := "Hello! I'm your AI "
  const GreetingMiddle: string :=
      ". How can I help you today? Please remember that "
      + "I provide information and guidance, but for "
      + "serious concerns, always consult with a real "
  const ReplyOpening: string := "Thank you for your question about \""
  const ReplyMiddle: string := "\". As your AI "
  const ReplyClosing: string :=
      ", I understand your concern. This is a mock "
      + "response - in a real application, this would be "
      + "connected to an AI service that provides "
      + "specialized advice. Please remember to consult "
      + "with real professionals for serious matters."

  /** The greeting of the first render; it says "real medical professional". */
  function InitialGreeting(s: Specialist): (g: string)
    ensures StartsWith(g, GreetingOpening + Key(s))
  {
    var head := GreetingOpening + Key(s);
    var g := head + GreetingMiddle + "medical professional.";
    assert g[..|head|] == head;
    g
  }

  /** The greeting after a change of specialist; it says "real professional". */
  function ChangeGreeting(s: Specialist): (g: string)
    ensures StartsWith(g, GreetingOpening + Key(s))
  {
    var head := GreetingOpening + Key(s);
    var g := head + GreetingMiddle + "professional.";
    assert g[..|head|] == head;
    g
  }

  /** The two greetings differ, even for the same specialist. */
  lemma GreetingsDiffer(s: Specialist)
    ensures InitialGreeting(s) != ChangeGreeting(s)
  {
    var head := GreetingOpening + Key(s) + GreetingMiddle;
    assert InitialGreeting(s)[|head|] == 'm';
    assert ChangeGreeting(s)[|head|] == 'p';
  }

  /** The mock reply quotes the question and names the specialist. */
  function ReplyText(question: string, s: Specialist): (t: string)
    ensures StartsWith(t, ReplyOpening + question + ReplyMiddle + Key(s))
  {
    var head := ReplyOpening + question + ReplyMiddle + Key(s);
    var t := head + ReplyClosing;
    assert t[..|head|] == head;
    t
  }

  class SpecialistChat {
    var activeSpecialist: Specialist
    var messages: seq<Entry>
    var inputMessage: string
    var pending: seq<PendingReply>

    /** The doctor is chosen first, with the greeting of id `'1'`. */
    constructor ()
      ensures activeSpecialist == Doctor
      ensures messages == [Entry(1, InitialGreeting(Doctor), false)]
      ensures inputMessage == "" && pending == []
    {
      activeSpecialist := Doctor;
      messages := [Entry(1, InitialGreeting(Doctor), false)];
      inputMessage := "";
      pending := [];
    }

    method SetInputMessage(value: string)
      modifies this`inputMessage
      ensures inputMessage == value
    {
      inputMessage := value;
    }

    /** `handleSpecialistChange`: the transcript is replaced by the new
        specialist's greeting. Replies still pending are not cancelled. */
    method HandleSpecialistChange(specialist: Specialist, now: nat)
      modifies this`activeSpecialist, this`messages
      ensures activeSpecialist == specialist
      ensures messages == [Entry(now, ChangeGreeting(specialist), false)]
    {
      activeSpecialist := specialist;
      messages := [Entry(now, ChangeGreeting(specialist), false)];
    }

    /** `handleSendMessage`: blank input does nothing; otherwise the untrimmed
        input is appended, a reply quoting it is scheduled with the current
        specialist, and the input is cleared. */
    method HandleSendMessage(now: nat)
      modifies this`messages, this`inputMessage, this`pending
      ensures Trim(old(inputMessage)) == "" ==>
                messages == old(messages) && inputMessage == old(inputMessage) && pending == old(pending)
      ensures Trim(old(inputMessage)) != "" ==>
                && messages == old(messages) + [Entry(now, old(inputMessage), true)]
                && pending == old(pending) + [PendingReply(old(inputMessage), activeSpecialist)]
                && inputMessage == ""
    {
      if Trim(inputMessage) == "" {
        return;
      }
      messages := messages + [Entry(now, inputMessage, true)];
      pending := pending + [PendingReply(inputMessage, activeSpecialist)];
      inputMessage := "";
    }

    /** The timer of the oldest pending reply fires at `now`: the reply gets
        id `now + 1` and is appended to whatever the transcript is then. */
    method ResolveReply(now: nat)
      requires pending != []
      modifies this`messages, this`pending
      ensures messages == old(messages) + [Entry(now + 1, ReplyText(old(pending)[0].question, old(pending)[0].specialist), false)]
      ensures pending == old(pending)[1..]
    {
      var p := pending[0];
      messages := messages + [Entry(now + 1, ReplyText(p.question, p.specialist), false)];
      pending := pending[1..];
    }
  }

  /** A question sent to the doctor, then a switch to the lawyer before the
      reply arrives: the doctor's reply lands in the lawyer's fresh
      transcript, right after the lawyer's greeting. */
  method StaleReplyAfterChange(question: string) returns (transcript: seq<Entry>)
    requires Trim(question) != ""
    ensures transcript == [Entry(20, ChangeGreeting(Lawyer), false),
                           Entry(1001, ReplyText(question, Doctor), false)]
  {
    var chat := new SpecialistChat();
    chat.SetInputMessage(question);
    chat.HandleSendMessage(10);
    assert chat.pending == [PendingReply(question, Doctor)];
    chat.HandleSpecialistChange(Lawyer, 20);
    chat.ResolveReply(1000);
    transcript := chat.messages;
  }
}
