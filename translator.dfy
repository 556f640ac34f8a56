/**
 * The translator page: its language lists, the swap button and how a reply of the translation
 * service becomes the output text. The service itself is a parameter: each call is given the reply.
 */
module Translator {
  import opened Strings
  import opened VscodeApi

  /** A language choice: the code sent to the service and the name shown. */
  datatype Language = Language(value: string, title: string)

  const Auto: Language := Language("auto", "Auto-detect")

  const DefaultLanguages: seq<Language> := [
    Auto, Language("en", "English"), Language("es", "Spanish"), Language("fr", "French"),
    Language("de", "German"), Language("it", "Italian"), Language("pt", "Portuguese"),
    Language("ru", "Russian"), Language("ja", "Japanese"), Language("zh", "Chinese")
  ]

  /** An entry of the service's language list; a missing field is the empty string. */
  datatype ServiceLanguage = ServiceLanguage(code: string, name: string)

  /** What `GET /api/translate` answers: an array of languages, or anything else. */
  datatype LanguagesReply = LanguageArray(entries: seq<ServiceLanguage>) | OtherReply

  /** The service's languages as choices, in order. */
  function AsLanguages(entries: seq<ServiceLanguage>): (r: seq<Language>)
    ensures |r| == |entries|
    ensures forall i | 0 <= i < |entries| :: r[i] == Language(entries[i].code, entries[i].name)
  {
    if entries == [] then [] else [Language(entries[0].code, entries[0].name)] + AsLanguages(entries[1..])
  }

  /**
   * The language list after the mount-time request: replaced by "Auto-detect" and the service's
   * languages only when the page is still mounted and the reply is a non-empty array whose first
   * entry has a code; kept otherwise.
   */
  function LanguagesAfterReply(current: seq<Language>, reply: LanguagesReply, mounted: bool): (r: seq<Language>)
    ensures (mounted && reply.LanguageArray? && |reply.entries| > 0 && reply.entries[0].code != "")
            ==> r == [Auto] + AsLanguages(reply.entries)
    ensures !(mounted && reply.LanguageArray? && |reply.entries| > 0 && reply.entries[0].code != "")
            ==> r == current
    ensures r == current || (r[0] == Auto && |r| >= 2)
  {
    match reply
    case LanguageArray(entries) =>
      if mounted && |entries| > 0 && entries[0].code != "" then [Auto] + AsLanguages(entries) else current
    case OtherReply => current
  }

  /** The target menu: every language but "auto", in order. */
  function TargetOptions(languages: seq<Language>): (r: seq<Language>)
    ensures |r| <= |languages|
    ensures forall l :: l in r <==> l in languages && l.value != "auto"
  {
    if languages == [] then []
    else if languages[0].value != "auto" then [languages[0]] + TargetOptions(languages[1..])
    else TargetOptions(languages[1..])
  }

  /** The filter keeps the order of the list. */
  lemma {:induction false} TargetOptionsConcat(a: seq<Language>, b: seq<Language>)
    ensures TargetOptions(a + b) == TargetOptions(a) + TargetOptions(b)
  {
    if a != [] {
      assert (a + b)[1..] == a[1..] + b;
      TargetOptionsConcat(a[1..], b);
    } else {
      assert a + b == b;
    }
  }

  /** Behind "Auto-detect", a list without "auto" is the whole target menu. */
  lemma TargetOptionsBehindAuto(languages: seq<Language>)
    requires forall i | 0 <= i < |languages| :: languages[i].value != "auto"
    ensures TargetOptions([Auto] + languages) == languages
  {
    TargetOptionsConcat([Auto], languages);
    TargetOptionsNoAuto(languages);
  }

  lemma {:induction false} TargetOptionsNoAuto(languages: seq<Language>)
    requires forall i | 0 <= i < |languages| :: languages[i].value != "auto"
    ensures TargetOptions(languages) == languages
  {
    if languages != [] {
      TargetOptionsNoAuto(languages[1..]);
    }
  }

  // ---------------------------------------------------------------- translation replies

  /** The fields of a reply body the page reads; a missing or falsy field is the empty string. */
  datatype ReplyBody = ReplyBody(translatedText: string, translated_text: string, error: string, message: string)

  /**
   * What the `POST` brings back: an HTTP reply with its status and body (an unreadable body reads as
   * `{}`), or a failed request with the message of what it threw.
   */
  datatype TranslateReply = HttpReply(ok: bool, body: ReplyBody) | Failed(errorMessage: string)

  /** `a || b`: the first non-empty string. */
  function OrElse(a: string, b: string): (r: string)
    ensures r == if a != "" then a else b
  {
    if a != "" then a else b
  }

  /** The output text a reply produces. */
  function OutputOf(reply: TranslateReply): (r: string)
    ensures reply.HttpReply? && reply.ok ==>
              r == OrElse(reply.body.translatedText, reply.body.translated_text)
    ensures reply.HttpReply? && !reply.ok ==>
              r == "Error: " + OrElse(reply.body.error, OrElse(reply.body.message, "Translation API error"))
    ensures reply.Failed? ==> r == "Error: " + reply.errorMessage
  {
    match reply
    case HttpReply(ok, body) =>
      if ok then OrElse(body.translatedText, body.translated_text)
      else "Error: " + OrElse(body.error, OrElse(body.message, "Translation API error"))
    case Failed(msg) => "Error: " + msg
  }

  /** A refused request always reports an error, never an empty output. */
  lemma RefusedReportsError(body: ReplyBody)
    ensures StartsWith(OutputOf(HttpReply(false, body)), "Error: ")
    ensures |OutputOf(HttpReply(false, body))| > |"Error: "|
  {
  }

  // ---------------------------------------------------------------- the page

  /** A translation request as it is sent. */
  datatype Request = Request(q: string, source: string, target: string, format: string)

  /** A toast the page raises. */
  datatype Notice = Notice(kind: ToastKind, text: string)

  datatype TranslatorState = TranslatorState(
    languages: seq<Language>, source: string, target: string, inputText: string, outputText: string,
    loading: bool, requests: seq<Request>, notices: seq<Notice>)

  const InitialState: TranslatorState :=
    TranslatorState(DefaultLanguages, "auto", "en", "", "", false, [], [])

  /**
   * `handleSwap`: the source takes the target, the target the source ("auto" becoming "en"), and a
   * non-blank output moves into the input.
   */
  function Swapped(s: TranslatorState): (r: TranslatorState)
    ensures r.source == s.target && r.target == (if s.source == "auto" then "en" else s.source)
    ensures Trim(s.outputText) != [] ==> r.inputText == s.outputText && r.outputText == ""
    ensures Trim(s.outputText) == [] ==> r.inputText == s.inputText && r.outputText == s.outputText
    ensures r.languages == s.languages && r.loading == s.loading
    ensures r.requests == s.requests && r.notices == s.notices
  {
    var moved := if Trim(s.outputText) != [] then s.(inputText := s.outputText, outputText := "") else s;
    moved.(source := s.target, target := if s.source == "auto" then "en" else s.source)
  }

  /**
   * Swapping twice gives the languages back when neither is "auto", and leaves the text where the
   * first swap put it.
   */
  lemma SwapTwice(s: TranslatorState)
    requires s.source != "auto" && s.target != "auto"
    ensures var t := Swapped(Swapped(s));
            t.source == s.source && t.target == s.target
            && t.inputText == Swapped(s).inputText && t.outputText == Swapped(s).outputText
  {
    var once := Swapped(s);
    if Trim(s.outputText) != [] {
      assert Trim(once.outputText) == [] by {
        assert once.outputText == "";
      }
    }
  }

  /**
   * `translate`: blank input only raises a toast; otherwise the request carries the input and both
   * languages, and when the reply is in the output shows what it produced and loading is over.
   */
  function Translated(s: TranslatorState, reply: TranslateReply): (r: TranslatorState)
    ensures Trim(s.inputText) == [] ==>
              r == s.(notices := s.notices + [Notice(Info, "Enter text to translate")])
    ensures Trim(s.inputText) != [] ==>
              && r.requests == s.requests + [Request(s.inputText, s.source, s.target, "text")]
              && r.outputText == OutputOf(reply) && !r.loading
              && r.inputText == s.inputText && r.source == s.source && r.target == s.target
              && r.languages == s.languages && r.notices == s.notices
  {
    if Trim(s.inputText) == [] then s.(notices := s.notices + [Notice(Info, "Enter text to translate")])
    else s.(requests := s.requests + [Request(s.inputText, s.source, s.target, "text")],
            outputText := OutputOf(reply), loading := false)
  }

  class TranslatorPage {
    var languages: seq<Language>
    var source: string
    var target: string
    var inputText: string
    var outputText: string
    var loading: bool
    /** The requests sent to the service, in order. */
    var requests: seq<Request>
    /** The toasts raised, in order. */
    var notices: seq<Notice>

    function State(): TranslatorState
      reads this
    {
      TranslatorState(languages, source, target, inputText, outputText, loading, requests, notices)
    }

    constructor()
      ensures State() == InitialState
    {
      languages, source, target := DefaultLanguages, "auto", "en";
      inputText, outputText, loading := "", "", false;
      requests, notices := [], [];
    }

    method Commit(next: TranslatorState)
      modifies this
      ensures State() == next
    {
      languages, source, target := next.languages, next.source, next.target;
      inputText, outputText, loading := next.inputText, next.outputText, next.loading;
      requests, notices := next.requests, next.notices;
    }

    /** The mount-time language request, given the service's reply. */
    method LoadLanguages(reply: LanguagesReply, mounted: bool)
      modifies this
      ensures State() == old(State()).(languages := LanguagesAfterReply(old(languages), reply, mounted))
    {
      languages := LanguagesAfterReply(languages, reply, mounted);
    }

    method HandleSwap()
      modifies this
      ensures State() == Swapped(old(State()))
    {
      Commit(Swapped(State()));
    }

    method Translate(reply: TranslateReply)
      modifies this
      ensures State() == Translated(old(State()), reply)
    {
      Commit(Translated(State(), reply));
    }

    /** `clearAll`: both texts emptied and a toast. */
    method ClearAll()
      modifies this
      ensures State() == old(State()).(inputText := "", outputText := "",
                                       notices := old(notices) + [Notice(Info, "Content cleared")])
    {
      inputText, outputText := "", "";
      notices := notices + [Notice(Info, "Content cleared")];
    }

    /** `handleCopyOutput`, given whether the clipboard accepted the text. */
    method HandleCopyOutput(copied: bool)
      modifies this
      ensures State() == old(State()).(notices := old(notices) +
                [if copied then Notice(Success, "Copied to clipboard!") else Notice(Error, "Unable to copy")])
    {
      notices := notices + [if copied then Notice(Success, "Copied to clipboard!") else Notice(Error, "Unable to copy")];
    }
  }
}
