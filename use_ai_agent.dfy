/**
 * The AI chat hook: the message list, the loading flag and the panel flag.
 * The remote interpreter call and the action executor are outside the
 * hook; their outcomes are parameters.
 */
module UseAiAgent {
  import opened Wrappers
  import opened Values

  datatype Role = UserRole | Assistant | ErrorRole

  /** What a message carries besides its role and text. */
  datatype Counts =
    | NoCounts
    | ActionCountOnly(actionCount: nat)
    | ExecCounts(actionCount: nat, successCount: nat, errorCount: nat)

  /** One chat message; its timestamp is left out. */
  datatype Message = Message(role: Role, content: string, counts: Counts)

  /** What sendAiCommand produced: a parsed reply `{message, actions}`, or a thrown error with its message. */
  datatype CommandOutcome =
    | Replied(message: Option<string>, actions: Option<seq<Action>>)
    | Threw(errorMessage: Option<string>)

  /** The tallies executeActions returns. */
  datatype ExecTally = ExecTally(successCount: nat, errorCount: nat)

  /** ECMAScript WhiteSpace and LineTerminator code points, the ones String.prototype.trim removes. */
  predicate IsJsWhitespace(c: char) {
    c == '\t' || c == '\n' || c == '\U{000B}' || c == '\U{000C}' || c == '\r' || c == ' ' ||
    c == '\U{00A0}' || c == '\U{1680}' || ('\U{2000}' <= c <= '\U{200A}') ||
    c == '\U{2028}' || c == '\U{2029}' || c == '\U{202F}' || c == '\U{205F}' ||
    c == '\U{3000}' || c == '\U{FEFF}'
  }

  /** `!command.trim()`: nothing but whitespace (the empty command included). */
  predicate Blank(command: string) {
    forall i :: 0 <= i < |command| ==> IsJsWhitespace(command[i])
  }

  /** `s || fallback` for a string that may be missing. */
  function OrElse(s: Option<string>, fallback: string): (r: string)
    ensures s.Some? && s.value != "" ==> r == s.value
    ensures !(s.Some? && s.value != "") ==> r == fallback
  {
    if s.Some? && s.value != "" then s.value else fallback
  }

  const FailedSuffixPrefix: string := " ("
  const FailedSuffixTail: string := " action(s) failed)"

  /** The note appended to the reply when some actions failed. */
  function FailureNote(errorCount: nat): (note: string)
    ensures errorCount == 0 <==> note == ""
  {
    if errorCount > 0 then FailedSuffixPrefix + NatToDecimal(errorCount) + FailedSuffixTail else ""
  }

  /** The failure note names the number of failed actions: the digits between its fixed parts read back as that number. */
  lemma FailureNoteReportsCount(errorCount: nat)
    requires errorCount > 0
    ensures var note := FailureNote(errorCount);
            var digits := note[|FailedSuffixPrefix|..|note| - |FailedSuffixTail|];
            note[..|FailedSuffixPrefix|] == FailedSuffixPrefix &&
            note[|note| - |FailedSuffixTail|..] == FailedSuffixTail &&
            (forall i :: 0 <= i < |digits| ==> '0' <= digits[i] <= '9') &&
            DecimalValue(digits) == errorCount
  {
    var note := FailureNote(errorCount);
    assert note[|FailedSuffixPrefix|..|note| - |FailedSuffixTail|] == NatToDecimal(errorCount);
    DecimalRoundTrip(errorCount);
  }

  /** The message the hook appends once the interpreter call has finished. */
  function Reply(outcome: CommandOutcome, tally: ExecTally): (m: Message)
    ensures outcome.Threw? ==> m.role == ErrorRole && m.counts == NoCounts
    ensures outcome.Threw? ==> m.content == OrElse(outcome.errorMessage, "Failed to process AI command. Please try again.")
    ensures outcome.Replied? ==> m.role == Assistant
    ensures outcome.Replied? && outcome.actions.Some? && |outcome.actions.value| > 0 ==>
              m.counts == ExecCounts(|outcome.actions.value|, tally.successCount, tally.errorCount) &&
              m.content == OrElse(outcome.message, "Done!") + FailureNote(tally.errorCount)
    ensures outcome.Replied? && !(outcome.actions.Some? && |outcome.actions.value| > 0) ==>
              m.counts == ActionCountOnly(0) &&
              m.content == OrElse(outcome.message, "I could not determine any actions for that command.")
  {
    match outcome
    case Threw(err) =>
      Message(ErrorRole, OrElse(err, "Failed to process AI command. Please try again."), NoCounts)
    case Replied(message, actions) =>
      if actions.Some? && |actions.value| > 0 then
        Message(Assistant, OrElse(message, "Done!") + FailureNote(tally.errorCount),
                ExecCounts(|actions.value|, tally.successCount, tally.errorCount))
      else
        Message(Assistant, OrElse(message, "I could not determine any actions for that command."), ActionCountOnly(0))
  }

  /** The reply text begins with the interpreter's message (or its fallback), and is longer exactly when some action failed. */
  lemma ReplyNotesFailures(message: Option<string>, actions: seq<Action>, tally: ExecTally)
    requires |actions| > 0
    ensures var base := OrElse(message, "Done!");
            var content := Reply(Replied(message, Some(actions)), tally).content;
            content[..|base|] == base && (|content| > |base| <==> tally.errorCount > 0)
  {
  }

  class AiAgent {
    var messages: seq<Message>
    var isLoading: bool
    var isPanelOpen: bool

    constructor ()
      ensures messages == [] && !isLoading && !isPanelOpen
    {
      messages := [];
      isLoading := false;
      isPanelOpen := false;
    }

    method TogglePanel()
      modifies this
      ensures isPanelOpen == !old(isPanelOpen)
      ensures messages == old(messages) && isLoading == old(isLoading)
    {
      isPanelOpen := !isPanelOpen;
    }

    method OpenPanel()
      modifies this
      ensures isPanelOpen
      ensures messages == old(messages) && isLoading == old(isLoading)
    {
      isPanelOpen := true;
    }

    method ClosePanel()
      modifies this
      ensures !isPanelOpen
      ensures messages == old(messages) && isLoading == old(isLoading)
    {
      isPanelOpen := false;
    }

    method ClearMessages()
      modifies this
      ensures messages == []
      ensures isLoading == old(isLoading) && isPanelOpen == old(isPanelOpen)
    {
      messages := [];
    }

    /**
     * The synchronous start of sendCommand: a blank command or a missing
     * user is ignored; otherwise the user's message is appended and the
     * loading flag raised.
     */
    method BeginCommand(command: string, hasUser: bool) returns (started: bool)
      modifies this
      ensures started <==> !Blank(command) && hasUser
      ensures started ==> messages == old(messages) + [Message(UserRole, command, NoCounts)] && isLoading
      ensures !started ==> messages == old(messages) && isLoading == old(isLoading)
      ensures isPanelOpen == old(isPanelOpen)
    {
      if Blank(command) || !hasUser {
        return false;
      }
      messages := messages + [Message(UserRole, command, NoCounts)];
      isLoading := true;
      started := true;
    }

    /** The rest of sendCommand: one reply message, then (finally) the loading flag is cleared. */
    method FinishCommand(outcome: CommandOutcome, tally: ExecTally)
      modifies this
      ensures messages == old(messages) + [Reply(outcome, tally)]
      ensures !isLoading
      ensures isPanelOpen == old(isPanelOpen)
    {
      messages := messages + [Reply(outcome, tally)];
      isLoading := false;
    }

    /**
     * sendCommand run to completion: a handled command appends the user's
     * message and then exactly one reply, and leaves the loading flag down.
     */
    method SendCommand(command: string, hasUser: bool, outcome: CommandOutcome, tally: ExecTally) returns (handled: bool)
      modifies this
      ensures handled <==> !Blank(command) && hasUser
      ensures handled ==> messages == old(messages) + [Message(UserRole, command, NoCounts), Reply(outcome, tally)] && !isLoading
      ensures !handled ==> messages == old(messages) && isLoading == old(isLoading)
      ensures isPanelOpen == old(isPanelOpen)
    {
      handled := BeginCommand(command, hasUser);
      if handled {
        FinishCommand(outcome, tally);
      }
    }
  }
}
