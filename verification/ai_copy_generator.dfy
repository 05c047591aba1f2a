/** The AI copywriter widget: a niche input, a loading flag, and the
    Generate handler that asks the copy service for a suggestion and passes
    it to `onUpdate`. The copy service is an abstract external that either
    returns a suggestion or throws. */
module CopyGenerator {
  import opened Wrappers

  /** `{ headline, subheadline, cta }`. */
  datatype CopySuggestion = CopySuggestion(headline: string, subheadline: string, cta: string)

  /** The arguments of one `generateMarketingCopy(niche, style)` call. */
  datatype GenerateRequest = GenerateRequest(niche: string, style: string)

  /** How awaiting `generateMarketingCopy` ends. */
  datatype GenerateReply = Returned(copy: CopySuggestion) | Threw

  class AICopyGenerator {
    var niche: string
    var loading: bool
    /** The `currentStyle` prop. */
    const currentStyle: string

    constructor (currentStyle: string)
      ensures this.currentStyle == currentStyle && niche == "" && !loading
    {
      this.currentStyle := currentStyle;
      niche := "";
      loading := false;
    }

    /** The niche input's `onChange`. */
    method SetNiche(value: string)
      modifies this`niche
      ensures niche == value
    {
      niche := value;
    }

    /** Whether the Generate button is enabled: it is disabled while a call
        is in flight, and otherwise exactly while the niche is empty. */
    predicate GenerateEnabled(): (enabled: bool)
      reads this
      ensures loading ==> !enabled
      ensures !loading ==> (enabled <==> niche != "")
    {
      !loading && niche != ""
    }

    /** `handleGenerate` up to its `await`: with an empty niche it returns
        at once and changes nothing; otherwise it sets `loading` and sends
        the niche and the current style. */
    method BeginGenerate() returns (request: Option<GenerateRequest>)
      modifies this`loading
      ensures niche == "" ==> request.None? && loading == old(loading)
      ensures niche != "" ==> loading && request == Some(GenerateRequest(niche, currentStyle))
    {
      if niche == "" {
        return None;
      }
      loading := true;
      request := Some(GenerateRequest(niche, currentStyle));
    }

    /** `handleGenerate` after its `await`: a returned suggestion goes to
        `onUpdate` as it is; a thrown error is logged and nothing goes to
        `onUpdate`; `finally` clears `loading` on both paths. */
    method FinishGenerate(reply: GenerateReply) returns (update: Option<CopySuggestion>)
      modifies this`loading
      ensures !loading
      ensures reply.Returned? <==> update.Some?
      ensures reply.Returned? ==> update.value == reply.copy
    {
      match reply {
        case Returned(copy) => update := Some(copy);
        case Threw => update := None;
      }
      loading := false;
    }

    /** The whole handler: at most one call, with exactly the niche and the
        style; `onUpdate` gets the unmodified suggestion exactly when a call
        was made and returned; `loading` ends as it began when no call was
        made and false otherwise. */
    method HandleGenerate(reply: GenerateReply) returns (request: Option<GenerateRequest>, update: Option<CopySuggestion>)
      modifies this`loading
      ensures request == (if niche == "" then None else Some(GenerateRequest(niche, currentStyle)))
      ensures update == (if request.Some? && reply.Returned? then Some(reply.copy) else None)
      ensures loading == (if request.None? then old(loading) else false)
      ensures old(GenerateEnabled()) ==> request.Some?
    {
      request := BeginGenerate();
      update := None;
      if request.Some? {
        update := FinishGenerate(reply);
      }
    }
  }
}
