/**
 * The text of one streamed unit: every completion of an engine output, preceded by the
 * prompt when `echo` is set, joined with single spaces.
 */
module TextAssembly {
  import Seqs

  /** One completion of the engine (vLLM's `CompletionOutput`); only its text is read. */
  datatype CompletionOutput = CompletionOutput(text: string)

  /** One item the engine yields (vLLM's `RequestOutput`): the prompt and its completions so far. */
  datatype RequestOutput = RequestOutput(prompt: string, outputs: seq<CompletionOutput>)

  /** The text each completion contributes, in the engine's order. */
  function OutputTexts(prompt: string, outputs: seq<CompletionOutput>, echo: bool): (texts: seq<string>)
    ensures |texts| == |outputs|
    ensures forall i :: 0 <= i < |outputs| ==>
      texts[i] == if echo then prompt + outputs[i].text else outputs[i].text
  {
    if outputs == [] then []
    else [if echo then prompt + outputs[0].text else outputs[0].text]
         + OutputTexts(prompt, outputs[1..], echo)
  }

  /** `" ".join(text_outputs)`. */
  function AssembleText(ro: RequestOutput, echo: bool): string
  {
    Seqs.Join(OutputTexts(ro.prompt, ro.outputs, echo), ' ')
  }

  /** A single completion is assembled without any separator. */
  lemma SingleOutput(ro: RequestOutput, echo: bool)
    requires |ro.outputs| == 1
    ensures AssembleText(ro, echo) == if echo then ro.prompt + ro.outputs[0].text else ro.outputs[0].text
  {
  }

  /** No completions give the empty text. */
  lemma NoOutputs(ro: RequestOutput, echo: bool)
    requires ro.outputs == []
    ensures AssembleText(ro, echo) == ""
  {
  }

  /** The assembled text holds every contribution and exactly one space between neighbours. */
  lemma AssembledLength(ro: RequestOutput, echo: bool)
    requires ro.outputs != []
    ensures |AssembleText(ro, echo)| == Seqs.SumLengths(OutputTexts(ro.prompt, ro.outputs, echo)) + |ro.outputs| - 1
  {
    Seqs.JoinLength(OutputTexts(ro.prompt, ro.outputs, echo), ' ');
  }

  /** When no contribution contains a space, splitting the text on spaces gives back each completion's contribution in order. */
  lemma AssembledSplits(ro: RequestOutput, echo: bool)
    requires ro.outputs != []
    requires Seqs.Clean(OutputTexts(ro.prompt, ro.outputs, echo), ' ')
    ensures Seqs.Split(AssembleText(ro, echo), ' ') == OutputTexts(ro.prompt, ro.outputs, echo)
  {
    Seqs.SplitJoin(OutputTexts(ro.prompt, ro.outputs, echo), ' ');
  }
}
