/** The interpretation service (bot/services/ai_service.py). The generation
    backend is an oracle: for each model name it either raises with a message
    or answers with a text. */
module Ai {
  import opened Wrappers
  import opened Text

  /** What asking one model gives: an exception, or the response text. */
  datatype ModelReply = Raised(message: string) | Replied(text: string)

  /** A model answers when it replies with a non-empty text. */
  predicate Answers(reply: ModelReply) {
    reply.Replied? && reply.text != ""
  }

  /** The index of the first model that answers, or `|models|` when none does. */
  function FirstAnswering(models: seq<string>, backend: string -> ModelReply): (i: nat)
    ensures i <= |models|
    ensures forall j :: 0 <= j < i ==> !Answers(backend(models[j]))
    ensures i < |models| ==> Answers(backend(models[i]))
  {
    if models == [] then 0
    else if Answers(backend(models[0])) then 0
    else 1 + FirstAnswering(models[1..], backend)
  }

  /** The result of `generate_interpretation`: nothing when AI is off; with AI
      on, an interpretation exists exactly when some model answers, and it is
      then the stripped text of the earliest such model. */
  function Interpretation(useAi: bool, models: seq<string>, backend: string -> ModelReply): (r: Option<string>)
    ensures !useAi ==> r.None?
    ensures r.Some? <==> useAi && exists i :: 0 <= i < |models| && Answers(backend(models[i]))
    ensures r.Some? ==>
      exists i :: 0 <= i < |models| && Answers(backend(models[i]))
        && (forall j :: 0 <= j < i ==> !Answers(backend(models[j])))
        && r.value == Strip(backend(models[i]).text)
  {
    if !useAi then None
    else
      var i := FirstAnswering(models, backend);
      if i < |models| then Some(Strip(backend(models[i]).text)) else None
  }

  /** Every model raising yields no interpretation (and never an exception). */
  lemma AllRaisingGivesNone(useAi: bool, models: seq<string>, backend: string -> ModelReply)
    requires forall i :: 0 <= i < |models| ==> backend(models[i]).Raised?
    ensures Interpretation(useAi, models, backend).None?
  {
  }

  /** The classes `_handle_ai_error` logs an error under. */
  datatype ErrorKind = QuotaError | AuthError | SafetyError | NotFoundError | OtherError

  /** The classes with their marker words, in the order they are tested. */
  const ErrorMarkers: seq<(ErrorKind, seq<string>)> := [
    (QuotaError, ["quota", "limit"]),
    (AuthError, ["api_key", "authentication"]),
    (SafetyError, ["safety", "blocked"]),
    (NotFoundError, ["404", "not found"])
  ]

  predicate HasMarker(message: string, words: seq<string>) {
    exists w :: w in words && Contains(Lower(message), w)
  }

  /** `_handle_ai_error`'s decision, on the lower-cased message: the class of
      the first table entry whose marker words occur, or "other". */
  function ClassifyError(message: string): (k: ErrorKind)
    ensures k == FirstMatch(message, ErrorMarkers)
  {
    HasMarkerPair(message, "quota", "limit");
    HasMarkerPair(message, "api_key", "authentication");
    HasMarkerPair(message, "safety", "blocked");
    HasMarkerPair(message, "404", "not found");
    var t := ErrorMarkers;
    assert t[3..][0] == (NotFoundError, ["404", "not found"]) && t[3..][1..] == [];
    assert FirstMatch(message, t[3..]) == (if HasMarker(message, ["404", "not found"]) then NotFoundError else OtherError);
    assert t[2..][0] == (SafetyError, ["safety", "blocked"]) && t[2..][1..] == t[3..];
    assert FirstMatch(message, t[2..]) == (if HasMarker(message, ["safety", "blocked"]) then SafetyError else FirstMatch(message, t[3..]));
    assert t[1..][0] == (AuthError, ["api_key", "authentication"]) && t[1..][1..] == t[2..];
    assert FirstMatch(message, t[1..]) == (if HasMarker(message, ["api_key", "authentication"]) then AuthError else FirstMatch(message, t[2..]));
    assert t[0] == (QuotaError, ["quota", "limit"]);
    var m := Lower(message);
    if Contains(m, "quota") || Contains(m, "limit") then QuotaError
    else if Contains(m, "api_key") || Contains(m, "authentication") then AuthError
    else if Contains(m, "safety") || Contains(m, "blocked") then SafetyError
    else if Contains(m, "404") || Contains(m, "not found") then NotFoundError
    else OtherError
  }

  /** The class of the first entry of a marker table the message matches. */
  function FirstMatch(message: string, table: seq<(ErrorKind, seq<string>)>): ErrorKind {
    if table == [] then OtherError
    else if HasMarker(message, table[0].1) then table[0].0
    else FirstMatch(message, table[1..])
  }

  /** A two-word marker list matches when either word occurs. */
  lemma HasMarkerPair(message: string, a: string, b: string)
    ensures HasMarker(message, [a, b]) <==> Contains(Lower(message), a) || Contains(Lower(message), b)
  {
    assert forall w :: w in [a, b] <==> w == a || w == b;
  }

  /** One entry of the backend's model listing. */
  datatype ModelInfo = ModelInfo(name: string, supportedGenerationMethods: seq<string>)

  /** The backend's listing: it raises, or yields the models. */
  datatype Listing = ListingRaised | Listed(models: seq<ModelInfo>)

  predicate CanGenerate(m: ModelInfo) {
    "generateContent" in m.supportedGenerationMethods
  }

  /** The names of the models that support `generateContent`, in listing order. */
  function GenerateCapable(ms: seq<ModelInfo>): (names: seq<string>)
    ensures |names| <= |ms|
    ensures forall n :: n in names ==> exists m :: m in ms && CanGenerate(m) && m.name == n
    ensures forall m :: m in ms && CanGenerate(m) ==> m.name in names
  {
    if ms == [] then []
    else if CanGenerate(ms[|ms| - 1]) then GenerateCapable(ms[..|ms| - 1]) + [ms[|ms| - 1].name]
    else GenerateCapable(ms[..|ms| - 1])
  }

  /** A single model contributes its name exactly when it can generate. */
  lemma GenerateCapableOne(m: ModelInfo)
    ensures GenerateCapable([m]) == if CanGenerate(m) then [m.name] else []
  {
    assert [m][..0] == [];
  }

  /** The filter distributes over concatenation: names keep the listing's
      order and each capable model gives its name once, where it stands. */
  lemma {:induction false} GenerateCapableConcat(xs: seq<ModelInfo>, ys: seq<ModelInfo>)
    ensures GenerateCapable(xs + ys) == GenerateCapable(xs) + GenerateCapable(ys)
    decreases |ys|
  {
    if ys == [] {
      assert xs + ys == xs;
    } else {
      var zs := xs + ys;
      assert zs[..|zs| - 1] == xs + ys[..|ys| - 1];
      assert zs[|zs| - 1] == ys[|ys| - 1];
      GenerateCapableConcat(xs, ys[..|ys| - 1]);
    }
  }

  class AIService {
    /** The client library imported. */
    const libraryPresent: bool
    /** `GEMINI_API_KEY`, if set. */
    const apiKey: Option<string>
    /** `gemini_models`, in priority order. */
    const models: seq<string>
    var useAi: bool

    /** `ai_available`: the library is present and a non-empty key is set. */
    predicate AiAvailable()
      ensures AiAvailable() <==> libraryPresent && apiKey.GetOr("") != ""
    {
      libraryPresent && apiKey.Some? && apiKey.value != ""
    }

    /** `ai_enabled`: the toggle is on and AI is available. */
    predicate AiEnabled()
      reads this
      ensures AiEnabled() <==> useAi && AiAvailable()
    {
      useAi && AiAvailable()
    }

    /** `__init__`: AI is on only when the library is present, a key is set,
        configuring the client did not raise, and interpretations are wanted. */
    constructor (libraryPresent: bool, apiKey: Option<string>, configureRaises: bool,
                 useAiInterpretations: bool, models: seq<string>)
      ensures this.libraryPresent == libraryPresent && this.apiKey == apiKey && this.models == models
      ensures useAi <==> AiAvailable() && !configureRaises && useAiInterpretations
    {
      this.libraryPresent := libraryPresent;
      this.apiKey := apiKey;
      this.models := models;
      new;
      useAi := false;
      if libraryPresent && apiKey.Some? && apiKey.value != "" {
        if configureRaises {
          useAi := false;
        } else {
          useAi := useAiInterpretations;
        }
      }
    }

    /** `generate_interpretation`: ask the models in order and return the first
        non-empty answer, stripped. Raising models are skipped; nothing raises.
        `asked` counts the models queried. */
    method GenerateInterpretation(cardName: string, userName: Option<string>, backend: string -> ModelReply)
      returns (r: Option<string>, ghost asked: nat)
      ensures r == Interpretation(useAi, models, backend)
      ensures !useAi ==> asked == 0
      ensures useAi ==> asked == (if r.Some? then FirstAnswering(models, backend) + 1 else |models|)
    {
      if !useAi {
        return None, 0;
      }
      var i := 0;
      asked := 0;
      while i < |models|
        invariant 0 <= i <= |models| && asked == i
        invariant forall j :: 0 <= j < i ==> !Answers(backend(models[j]))
      {
        var reply := backend(models[i]);
        asked := asked + 1;
        if reply.Replied? && reply.text != "" {
          assert FirstAnswering(models, backend) == i by {
            FirstAnsweringAt(models, backend, i);
          }
          return Some(Strip(reply.text)), asked;
        }
        i := i + 1;
      }
      FirstAnsweringAt(models, backend, |models|);
      r := None;
    }

    /** `get_available_models`: nothing when AI is unavailable or the listing
        raises, otherwise the generation-capable models in listing order. */
    method GetAvailableModels(listing: Listing) returns (names: seq<string>)
      ensures !AiAvailable() || listing.ListingRaised? ==> names == []
      ensures AiAvailable() && listing.Listed? ==> names == GenerateCapable(listing.models)
    {
      if !AiAvailable() {
        return [];
      }
      match listing
      case ListingRaised =>
        names := [];
      case Listed(ms) =>
        names := [];
        var i := 0;
        while i < |ms|
          invariant 0 <= i <= |ms|
          invariant names == GenerateCapable(ms[..i])
        {
          assert ms[..i + 1][..i] == ms[..i];
          if CanGenerate(ms[i]) {
            names := names + [ms[i].name];
          }
          i := i + 1;
        }
        assert ms[..|ms|] == ms;
    }

    /** `toggle_ai`: without AI available nothing changes and the answer is
        false; otherwise the toggle flips and its new value is returned. */
    method ToggleAi() returns (on: bool)
      modifies this`useAi
      ensures !AiAvailable() ==> !on && useAi == old(useAi)
      ensures AiAvailable() ==> useAi == !old(useAi) && on == useAi
    {
      if !AiAvailable() {
        return false;
      }
      useAi := !useAi;
      on := useAi;
    }
  }

  /** The first answering index is the first index with an answer: when models
      before `i` do not answer and `i` is the end or answers, it is `i`. */
  lemma {:induction false} FirstAnsweringAt(models: seq<string>, backend: string -> ModelReply, i: nat)
    requires i <= |models|
    requires forall j :: 0 <= j < i ==> !Answers(backend(models[j]))
    requires i < |models| ==> Answers(backend(models[i]))
    ensures FirstAnswering(models, backend) == i
    decreases i
  {
    if i > 0 {
      assert !Answers(backend(models[0]));
      FirstAnsweringAt(models[1..], backend, i - 1);
    }
  }

  /** Toggling twice with AI available restores the toggle. */
  method ToggleTwice(ai: AIService) returns (first: bool, second: bool)
    modifies ai`useAi
    ensures ai.useAi == old(ai.useAi)
    ensures ai.AiAvailable() ==> first == !old(ai.useAi) && second == old(ai.useAi)
    ensures !ai.AiAvailable() ==> !first && !second
  {
    first := ai.ToggleAi();
    second := ai.ToggleAi();
  }
}
