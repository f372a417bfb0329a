/**
 * The text formatting step of the dialogue encoder: a conversation history, a list of
 * (user utterance, AI utterance) turns, becomes one string with the speakers labelled and
 * the turns separated by blank lines; a batch of histories is formatted one by one. The
 * tokenizer and the BERT model that consume the text are not part of this model.
 */
module DialogueEncoder {
  import opened Strings

  type Turn = (string, string)

  const UserLabel := "User: "
  const AiLabel := "\nAI: "
  const TurnSeparator := "\n\n"

  function FormatTurn(t: Turn): string
  {
    UserLabel + t.0 + AiLabel + t.1
  }

  function FormattedTurns(history: seq<Turn>): (ts: seq<string>)
    ensures |ts| == |history|
    ensures forall i :: 0 <= i < |history| ==> ts[i] == FormatTurn(history[i])
  {
    seq(|history|, i requires 0 <= i < |history| => FormatTurn(history[i]))
  }

  /** `_format_dialogue`. */
  function FormatDialogue(history: seq<Turn>): string
  {
    Join(FormattedTurns(history), TurnSeparator)
  }

  /** `forward`'s formatting step: one text per history, in batch order. */
  function FormatBatch(histories: seq<seq<Turn>>): (texts: seq<string>)
    ensures |texts| == |histories|
    ensures forall i :: 0 <= i < |histories| ==> texts[i] == FormatDialogue(histories[i])
  {
    seq(|histories|, i requires 0 <= i < |histories| => FormatDialogue(histories[i]))
  }

  /** No turns give the empty text; one turn gives exactly its labelled form. */
  lemma FormatSmallCases(t: Turn)
    ensures FormatDialogue([]) == ""
    ensures FormatDialogue([t]) == "User: " + t.0 + "\nAI: " + t.1
  {
    assert FormattedTurns([t]) == [FormatTurn(t)];
  }

  /** Adding a turn appends a blank line and the new turn: turns stay in order. */
  lemma FormatAppend(history: seq<Turn>, t: Turn)
    requires history != []
    ensures FormatDialogue(history + [t]) == FormatDialogue(history) + TurnSeparator + FormatTurn(t)
  {
    assert FormattedTurns(history + [t]) == FormattedTurns(history) + [FormatTurn(t)];
    JoinSnoc(FormattedTurns(history), FormatTurn(t), TurnSeparator);
  }

  /** The characters the utterances and the two labels take, turn by turn. */
  function TurnsLength(history: seq<Turn>): nat
  {
    if history == [] then 0 else |history[0].0| + |history[0].1| + 11 + TurnsLength(history[1..])
  }

  lemma {:induction false} FormattedTurnsLength(history: seq<Turn>)
    ensures TotalLength(FormattedTurns(history)) == TurnsLength(history)
  {
    if history != [] {
      assert FormattedTurns(history)[1..] == FormattedTurns(history[1..]);
      FormattedTurnsLength(history[1..]);
    }
  }

  /** For one or more turns the text is as long as the utterances, eleven label characters
      per turn and two separator characters between each neighbouring pair of turns. */
  lemma FormatDialogueLength(history: seq<Turn>)
    requires history != []
    ensures |FormatDialogue(history)| == TurnsLength(history) + 2 * (|history| - 1)
  {
    JoinLength(FormattedTurns(history), TurnSeparator);
    FormattedTurnsLength(history);
  }
}
