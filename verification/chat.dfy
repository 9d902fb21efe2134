/** `process_user_input`: the turn handler shared by both nurses. The model
    call is not modelled; its outcome is an argument. */
module Chat {
  import opened Base
  import opened History
  import opened Records
  import opened Store

  /** What the model call came back with: some text (possibly empty), no
      response object at all, or an exception with its message. */
  datatype ModelOutcome = Reply(text: string) | NoResponse | Raised(error: string)

  /** The records a turn shows the model, each as its getter returns it. */
  datatype Context = Context(medications: Listing<Medication>, appointments: Listing<Appointment>,
                             vitals: Listing<VitalSign>)

  /** What the model is sent: one system message made of the fixed persona
      prompt and the serialised `context`, followed by the text of every turn
      still in the history. */
  datatype Request = Request(context: Context, turns: seq<string>)

  /** The nurse after a turn, the reply shown to the user, and the request sent
      to the model (None when the model is not called). */
  datatype ChatStep = ChatStep(nurse: Nurse, reply: string, request: Option<Request>)

  const Farewell := "Goodbye! Take care of your health."
  const NoResponseReply := "I apologize, but I couldn't generate a response. Please try again."

  function ErrorReply(error: string): string
  {
    "I'm having trouble with the AI model: " + error + ". Please try again later."
  }

  /** The model gave text the nurse records and returns. */
  predicate Answered(outcome: ModelOutcome)
  {
    outcome.Reply? && outcome.text != ""
  }

  /** The reply when the model gave nothing usable. */
  function FallbackReply(outcome: ModelOutcome): string
  {
    if outcome.Raised? then ErrorReply(outcome.error) else NoResponseReply
  }

  function LowerChar(c: char): char
  {
    if 'A' <= c <= 'Z' then (c as int + 32) as char else c
  }

  function UpperChar(c: char): char
  {
    if 'a' <= c <= 'z' then (c as int - 32) as char else c
  }

  /** `str.lower()` on the letters A-Z. */
  function Lower(s: string): (r: string)
    ensures |r| == |s|
    ensures forall i :: 0 <= i < |s| ==> r[i] == LowerChar(s[i])
  {
    seq(|s|, i requires 0 <= i < |s| => LowerChar(s[i]))
  }

  const ExitWords: seq<string> := ["exit", "quit", "bye"]

  /** `user_input.lower() in ["exit", "quit", "bye"]`; no whitespace is stripped. */
  predicate IsExitWord(s: string)
  {
    Lower(s) in ExitWords
  }

  /** `s` spells the lower-case word `w` letter by letter, each letter in
      either case. */
  predicate SpellsIgnoringCase(s: string, w: string)
  {
    |s| == |w| && forall i :: 0 <= i < |s| ==> s[i] == w[i] || s[i] == UpperChar(w[i])
  }

  predicate IsLowerWord(w: string)
  {
    forall i :: 0 <= i < |w| ==> 'a' <= w[i] <= 'z'
  }

  lemma LowerIsWordIffSpells(s: string, w: string)
    requires IsLowerWord(w)
    ensures Lower(s) == w <==> SpellsIgnoringCase(s, w)
  {
    if SpellsIgnoringCase(s, w) {
      assert forall i :: 0 <= i < |s| ==> Lower(s)[i] == w[i];
    }
  }

  /** The exit words are recognised in any mix of cases and in no other form:
      "BYE" and "Quit" end the chat, " bye" and "bye!" do not. */
  lemma ExitWordIffSpelled(s: string)
    ensures IsExitWord(s) <==>
      SpellsIgnoringCase(s, "exit") || SpellsIgnoringCase(s, "quit") || SpellsIgnoringCase(s, "bye")
  {
    LowerIsWordIffSpells(s, "exit");
    LowerIsWordIffSpells(s, "quit");
    LowerIsWordIffSpells(s, "bye");
  }

  lemma KnownExitWords()
    ensures IsExitWord("BYE") && IsExitWord("Quit") && IsExitWord("exit")
    ensures !IsExitWord(" bye") && !IsExitWord("bye!") && !IsExitWord("goodbye")
  {
    ExitWordIffSpelled("BYE");
    ExitWordIffSpelled("Quit");
    ExitWordIffSpelled("exit");
    assert Lower(" bye")[0] == ' ';
    assert Lower("bye!")[0] == 'b';
    assert |Lower("goodbye")| == 7;
  }

  /** The turn handler once the nurse's getters have built `ctx`. */
  function Respond(n: Nurse, ctx: Context, input: string, outcome: ModelOutcome): (r: ChatStep)
    ensures r.nurse.data == n.data && r.nurse.notes == n.notes
    ensures IsExitWord(input) ==> r.nurse == n && r.reply == Farewell && r.request.None?
    ensures !IsExitWord(input) ==>
      && r.request == Some(Request(ctx, Contents(AddTurn(n.history, Turn(User, input)))))
      && r.request.value.turns[|r.request.value.turns| - 1] == input
    ensures !IsExitWord(input) && Answered(outcome) ==>
      && r.reply == outcome.text
      && r.nurse.history == AddTurn(AddTurn(n.history, Turn(User, input)), Turn(Assistant, outcome.text))
      && |r.nurse.history| >= 2
      && r.nurse.history[|r.nurse.history| - 2..] == [Turn(User, input), Turn(Assistant, outcome.text)]
    ensures !IsExitWord(input) && !Answered(outcome) ==>
      && r.reply == FallbackReply(outcome)
      && r.nurse.history == AddTurn(n.history, Turn(User, input))
      && r.nurse.history[|r.nurse.history| - 1] == Turn(User, input)
  {
    if IsExitWord(input) then ChatStep(n, Farewell, None)
    else
      var user := Turn(User, input);
      var asked := n.(history := AddTurn(n.history, user));
      var turns := Contents(asked.history);
      assert turns[|turns| - 1] == input;
      var request := Request(ctx, turns);
      if Answered(outcome) then
        var assistant := Turn(Assistant, outcome.text);
        EndsWithPair(n.history, user, assistant);
        ChatStep(asked.(history := AddTurn(asked.history, assistant)), outcome.text, Some(request))
      else
        ChatStep(asked, FallbackReply(outcome), Some(request))
  }
}
