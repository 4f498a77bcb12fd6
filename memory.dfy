/**
  `MemoryModule.extract_memory` after the service call: the language
  model's reply text, passed through `json.loads`, is unwrapped from a list,
  given defaults for missing fields and validated into a `UserProfile`; an
  exception in the try block yields the all-empty profile, and the handler
  shows the raw reply text.

  `TryExtract` follows the try block step by step, with Python's semantics
  for `in`, item assignment and `**` on whatever value the reply turned out
  to be; `Extract` states its outcome declaratively, and the method's
  postcondition ties the two together. The handler as the source writes it
  reads the reply's text again, which raises once more when reading it was
  what failed (`ExtractMemoryAsWritten`); `ExtractMemory` is the handler
  that always falls back.
 */
module Memory {
  import opened Wrappers
  import opened JsonValues
  import opened Models

  /** What the service call produced, as far as extraction can observe it. */
  datatype ServiceReply =
    | CallFailed(detail: string)                      // generate_content raised, so no response exists
    | TextUnreadable(detail: string)                  // a response exists, but reading its text raises
    | Text(text: string, parsed: Result<Json, string>) // the reply text and the outcome of json.loads on it

  /** The exceptions the try block of `extract_memory` can raise. */
  datatype ExtractionError =
    | ServiceError(detail: string)        // generate_content raised
    | TextUnavailable(detail: string)     // the response's text accessor raised
    | ParseError(detail: string)          // json.loads rejected the text
    | TypeError                           // `in`, item assignment or `**` applied to a value that is not a dict
    | Invalid(reason: ValidationError)    // UserProfile(**raw_data) rejected the arguments

  /** The object that replaces an empty top-level list. */
  function EmptyProfileObject(): Json {
    JObject(map[PreferencesKey := JArray([]), EmotionalPatternsKey := JArray([]), FactsKey := JArray([])])
  }

  /** One level of list unwrapping: a list gives its first element, an empty list the empty profile object. */
  function Unwrap(j: Json): Json {
    match j
    case JArray(items) => if |items| > 0 then items[0] else EmptyProfileObject()
    case _ => j
  }

  /** The object's entries, with `[]` under each profile field it lacks. */
  function WithDefaults(fields: map<string, Json>): (r: map<string, Json>)
    ensures r.Keys == fields.Keys + ProfileKeys
  {
    map k | k in fields.Keys + ProfileKeys :: if k in fields then fields[k] else JArray([])
  }

  /** What the try block yields from a parse outcome onwards, or the exception it raises. */
  function Extract(parsed: Result<Json, string>): (r: Result<UserProfile, ExtractionError>)
    ensures r.Success? ==>
      parsed.Success? && Unwrap(parsed.value).JObject? &&
      Describes(WithDefaults(Unwrap(parsed.value).fields), r.value)
    ensures r.Failure? ==> r.error.ParseError? || r.error.TypeError? || r.error.Invalid?
  {
    match parsed
    case Failure(detail) => Failure(ParseError(detail))
    case Success(j) =>
      var raw := Unwrap(j);
      if !raw.JObject? then Failure(TypeError)
      else
        match Validate(WithDefaults(raw.fields))
        case Success(p) => Success(p)
        case Failure(v) => Failure(Invalid(v))
  }

  /** The whole try block, from the service reply on. */
  function TryBlock(reply: ServiceReply): Result<UserProfile, ExtractionError> {
    match reply
    case CallFailed(detail) => Failure(ServiceError(detail))
    case TextUnreadable(detail) => Failure(TextUnavailable(detail))
    case Text(_, parsed) => Extract(parsed)
  }

  /**
    The raw output the handler shows, as the source computes it: "None" when
    no response exists, otherwise the response's text, whose accessor raises
    again when it raised in the try block.
   */
  function RawOutputAsWritten(reply: ServiceReply): Result<string, ExtractionError> {
    match reply
    case CallFailed(_) => Success("None")
    case TextUnreadable(detail) => Failure(TextUnavailable(detail))
    case Text(text, _) => Success(text)
  }

  /** The raw output a handler that cannot fail shows: the text when it was read, otherwise "None". */
  function RawOutput(reply: ServiceReply): (r: string)
    ensures RawOutputAsWritten(reply).Success? ==> r == RawOutputAsWritten(reply).value
  {
    match reply
    case Text(text, _) => text
    case _ => "None"
  }

  /** `s` occurs in `text` as a contiguous substring. */
  predicate IsSubstring(s: string, text: string) {
    exists i :: 0 <= i <= |text| && s <= text[i..]
  }

  /**
    Python's `key in container`: a dict tests its keys, a string tests for a
    substring, a list tests its elements; any other value raises TypeError.
   */
  function Contains(container: Json, key: string): (r: Result<bool, ExtractionError>)
    ensures container.JObject? ==> r == Success(key in container.fields)
    ensures r.Failure? <==> !(container.JObject? || container.JStr? || container.JArray?)
  {
    match container
    case JObject(fields) => Success(key in fields)
    case JStr(s) => Success(IsSubstring(key, s))
    case JArray(items) => Success(JStr(key) in items)
    case _ => Failure(TypeError)
  }

  /** Python's `container[key] = value`: only a dict accepts a string key. */
  function SetItem(container: Json, key: string, value: Json): (r: Result<Json, ExtractionError>)
    ensures r.Success? <==> container.JObject?
    ensures r.Success? ==> r == Success(JObject(container.fields[key := value]))
  {
    match container
    case JObject(fields) => Success(JObject(fields[key := value]))
    case _ => Failure(TypeError)
  }

  /** Inserts an empty list under `key` unless the membership test finds the key already there. */
  method SetDefault(rawData: Json, key: string) returns (r: Result<Json, ExtractionError>)
    ensures rawData.JObject? ==>
      r == Success(JObject(if key in rawData.fields then rawData.fields else rawData.fields[key := JArray([])]))
    ensures !rawData.JObject? ==> r == Failure(TypeError) || r == Success(rawData)
  {
    var present := Contains(rawData, key);
    if present.Failure? {
      return Failure(present.error);
    }
    if !present.value {
      r := SetItem(rawData, key, JArray([]));
    } else {
      r := Success(rawData);
    }
  }

  /**
    The try block from `json.loads` onwards: `parsed` is the outcome of
    parsing the reply text; the result is the profile built, or the
    exception raised.
   */
  method TryExtract(parsed: Result<Json, string>) returns (r: Result<UserProfile, ExtractionError>)
    ensures r == Extract(parsed)
  {
    if parsed.Failure? {
      return Failure(ParseError(parsed.error));
    }
    var rawData := parsed.value;

    if rawData.JArray? {
      if |rawData.items| > 0 {
        rawData := rawData.items[0];
      } else {
        rawData := EmptyProfileObject();
      }
    }
    ghost var unwrapped := rawData;
    assert unwrapped == Unwrap(parsed.value);

    var step := SetDefault(rawData, FactsKey);
    if step.Failure? {
      return Failure(step.error);
    }
    rawData := step.value;
    step := SetDefault(rawData, PreferencesKey);
    if step.Failure? {
      return Failure(step.error);
    }
    rawData := step.value;
    step := SetDefault(rawData, EmotionalPatternsKey);
    if step.Failure? {
      return Failure(step.error);
    }
    rawData := step.value;

    // keyword expansion into the profile constructor needs a mapping
    if !rawData.JObject? {
      return Failure(TypeError);
    }
    assert rawData.fields == WithDefaults(unwrapped.fields);
    var validated := Validate(rawData.fields);
    if validated.Failure? {
      return Failure(Invalid(validated.error));
    }
    return Success(validated.value);
  }

  /** How a call of `extract_memory` ends: it returns a profile, or an exception escapes it. */
  datatype Outcome =
    | Returned(profile: UserProfile, error: Option<ExtractionError>, rawShown: Option<string>)
    | Escaped(exception: ExtractionError)

  /**
    `extract_memory` as the source writes it. On an exception the handler
    reports it and then reads the response's text to show it; when that
    read is what failed, the second read raises out of the handler.
   */
  method ExtractMemoryAsWritten(reply: ServiceReply) returns (outcome: Outcome)
    ensures TryBlock(reply).Success? ==> outcome == Returned(TryBlock(reply).value, None, None)
    ensures TryBlock(reply).Failure? && !reply.TextUnreadable? ==>
      outcome == Returned(EmptyProfile(), Some(TryBlock(reply).error), Some(RawOutput(reply)))
    ensures reply.TextUnreadable? ==> outcome == Escaped(TextUnavailable(reply.detail))
  {
    var tried: Result<UserProfile, ExtractionError>;
    match reply {
      case CallFailed(detail) => tried := Failure(ServiceError(detail));
      case TextUnreadable(detail) => tried := Failure(TextUnavailable(detail));
      case Text(_, parsed) => tried := TryExtract(parsed);
    }
    if tried.Success? {
      return Returned(tried.value, None, None);
    }
    var shown := RawOutputAsWritten(reply);
    if shown.Failure? {
      return Escaped(shown.error);
    }
    return Returned(EmptyProfile(), Some(tried.error), Some(shown.value));
  }

  /**
    `extract_memory` with a handler that cannot raise: any exception in the
    try block yields the all-empty profile, the exception, and the raw
    output shown.
   */
  method ExtractMemory(reply: ServiceReply) returns (profile: UserProfile, error: Option<ExtractionError>, rawShown: Option<string>)
    ensures TryBlock(reply).Success? ==> profile == TryBlock(reply).value && error == None && rawShown == None
    ensures TryBlock(reply).Failure? ==>
      profile == EmptyProfile() && error == Some(TryBlock(reply).error) && rawShown == Some(RawOutput(reply))
  {
    var tried: Result<UserProfile, ExtractionError>;
    match reply {
      case CallFailed(detail) => tried := Failure(ServiceError(detail));
      case TextUnreadable(detail) => tried := Failure(TextUnavailable(detail));
      case Text(_, parsed) => tried := TryExtract(parsed);
    }
    if tried.Success? {
      return tried.value, None, None;
    }
    return EmptyProfile(), Some(tried.error), Some(RawOutput(reply));
  }

  /** The handler as written fails exactly when the reply's text could not be read. */
  lemma RawOutputAsWrittenFailsIff(reply: ServiceReply)
    ensures RawOutputAsWritten(reply).Failure? <==> reply.TextUnreadable?
  {
  }

  /** A concrete reply on which the source's handler raises instead of falling back. */
  lemma UnreadableTextEscapes()
    ensures TryBlock(TextUnreadable("no text in response")).Failure?
    ensures RawOutputAsWritten(TextUnreadable("no text in response")) == Failure(TextUnavailable("no text in response"))
  {
  }

  // ---- Properties of the specification ----

  /** A non-empty top-level list is replaced by its first element; the rest are ignored. */
  lemma NonEmptyListTakesFirst(first: Json, rest: seq<Json>)
    requires !first.JArray?
    ensures Extract(Success(JArray([first] + rest))) == Extract(Success(first))
  {
  }

  /** Only one level is unwrapped: a list whose first element is a list fails. */
  lemma NestedListFails(inner: seq<Json>, rest: seq<Json>)
    ensures Extract(Success(JArray([JArray(inner)] + rest))) == Failure(TypeError)
  {
  }

  /** An empty top-level list is a handled case: it yields the empty profile without error. */
  lemma EmptyListGivesEmptyProfile()
    ensures Extract(Success(JArray([]))) == Success(EmptyProfile())
  {
    assert WithDefaults(EmptyProfileObject().fields) == AsKwargs(EmptyProfile());
    ValidateAsKwargs(EmptyProfile());
  }

  /** Defaulting inserts `[]` under each absent field, keeps present keys and changes nothing else. */
  lemma WithDefaultsEntries(fields: map<string, Json>, k: string)
    ensures k in fields ==> k in WithDefaults(fields) && WithDefaults(fields)[k] == fields[k]
    ensures k !in fields && k in ProfileKeys ==> k in WithDefaults(fields) && WithDefaults(fields)[k] == JArray([])
    ensures k !in fields && k !in ProfileKeys ==> k !in WithDefaults(fields)
  {
  }

  /** A field of the profile: absent and the profile's list is empty, or present and holding exactly that list. */
  ghost predicate FieldGives(fields: map<string, Json>, key: string, xs: seq<string>) {
    if key in fields then fields[key] == StringArray(xs) else xs == []
  }

  /**
    An object extracts to `p` if and only if each of its three fields either
    is absent (and `p`'s list is empty) or holds exactly `p`'s list.
   */
  lemma ObjectExtractsIff(fields: map<string, Json>, p: UserProfile)
    ensures Extract(Success(JObject(fields))) == Success(p) <==>
      && FieldGives(fields, PreferencesKey, p.preferences)
      && FieldGives(fields, EmotionalPatternsKey, p.emotionalPatterns)
      && FieldGives(fields, FactsKey, p.facts)
  {
    var kwargs := WithDefaults(fields);
    ValidateIff(kwargs, p);
    assert StringArray([]) == JArray([]);
    forall key | key in ProfileKeys
      ensures key in kwargs && (kwargs[key] == StringArray(if key == PreferencesKey then p.preferences
                                                           else if key == EmotionalPatternsKey then p.emotionalPatterns
                                                           else p.facts)
                                <==> FieldGives(fields, key, if key == PreferencesKey then p.preferences
                                                           else if key == EmotionalPatternsKey then p.emotionalPatterns
                                                           else p.facts))
    {
      var xs := if key == PreferencesKey then p.preferences
                else if key == EmotionalPatternsKey then p.emotionalPatterns
                else p.facts;
      if key !in fields && kwargs[key] == StringArray(xs) {
        assert |xs| == |StringArray(xs).items| == 0;
      }
    }
  }

  /** Every value that is not an object after unwrapping ends in the fallback. */
  lemma NonObjectFallsBack(j: Json)
    requires !Unwrap(j).JObject?
    ensures Extract(Success(j)) == Failure(TypeError)
  {
  }

  /**
    A parse failure is reported as `ParseError` with the parser's detail;
    `ExtractMemory`'s ensures then turn it into the all-empty profile.
   */
  lemma ParseFailureFallsBack(detail: string)
    ensures Extract(Failure(detail)) == Failure(ParseError(detail))
  {
  }

  /** A field that is present but not a list of strings ends in the fallback. */
  lemma BadFieldFallsBack(fields: map<string, Json>, key: string)
    requires key in ProfileKeys && key in fields
    requires !fields[key].JArray? || exists i :: 0 <= i < |fields[key].items| && !fields[key].items[i].JStr?
    ensures Extract(Success(JObject(fields))).Failure?
  {
    var kwargs := WithDefaults(fields);
    if !fields[key].JArray? {
      NonListFieldFails(kwargs, key);
    } else {
      var i :| 0 <= i < |fields[key].items| && !fields[key].items[i].JStr?;
      NonStringItemFails(kwargs, key, i);
    }
  }

  /** The reply the instruction asks for, one object with the three lists, extracts to that profile, alone or first in a list. */
  lemma WellFormedReplyRoundTrip(p: UserProfile, rest: seq<Json>)
    ensures Extract(Success(JObject(AsKwargs(p)))) == Success(p)
    ensures Extract(Success(JArray([JObject(AsKwargs(p))] + rest))) == Success(p)
  {
    assert WithDefaults(AsKwargs(p)) == AsKwargs(p);
    ValidateAsKwargs(p);
  }

  /** The object whose only key is `facts`, holding `[n]`, fails at item 0 of `facts`, whatever `n` is. */
  lemma NumberItemFails(n: int)
    ensures Extract(Success(JObject(map[FactsKey := JArray([JNum(n)])])))
         == Failure(Invalid(NotAString(FactsKey, 0)))
  {
  }

  /** A key outside the profile fields, whatever it holds, does not change the outcome for any object. */
  lemma ExtraKeyIgnored(fields: map<string, Json>, key: string, value: Json)
    requires key !in ProfileKeys
    ensures Extract(Success(JObject(fields[key := value]))) == Extract(Success(JObject(fields)))
  {
  }
}
