/**
  The record shapes of the application: the extracted `UserProfile`, with its
  three required string lists, and the `ChatMessage` record. Validation is
  the step `UserProfile(**kwargs)` performs on keyword arguments taken from a
  parsed JSON object.
 */
module Models {
  import opened Wrappers
  import opened JsonValues

  const PreferencesKey: string := "preferences"
  const EmotionalPatternsKey: string := "emotional_patterns"
  const FactsKey: string := "facts"

  /** The three field names of `UserProfile`, all of them required. */
  const ProfileKeys: set<string> := {PreferencesKey, EmotionalPatternsKey, FactsKey}

  datatype UserProfile = UserProfile(
    preferences: seq<string>,
    emotionalPatterns: seq<string>,
    facts: seq<string>)

  datatype ChatMessage = ChatMessage(role: string, content: string)

  /** The profile with all three lists empty: the extraction fallback. */
  function EmptyProfile(): UserProfile {
    UserProfile([], [], [])
  }

  /** Why a set of keyword arguments does not make a `UserProfile`. */
  datatype ValidationError =
    | MissingField(field: string)
    | NotAList(field: string)
    | NotAString(field: string, index: nat)

  /**
    The strings of a JSON array's items. It fails exactly when some item is
    not a string, and then names the first such item.
   */
  function StringItems(items: seq<Json>): (r: Result<seq<string>, nat>)
    ensures r.Success? <==> forall i :: 0 <= i < |items| ==> items[i].JStr?
    ensures r.Success? ==>
      |r.value| == |items| && forall i :: 0 <= i < |items| ==> items[i] == JStr(r.value[i])
    ensures r.Failure? ==>
      r.error < |items| && !items[r.error].JStr? &&
      forall i :: 0 <= i < r.error ==> items[i].JStr?
  {
    if items == [] then Success([])
    else if !items[0].JStr? then Failure(0)
    else
      match StringItems(items[1..])
      case Success(rest) => Success([items[0].s] + rest)
      case Failure(k) => Failure(k + 1)
  }

  /**
    Validates one required `List[str]` field: it succeeds exactly when the
    field is present and holds an array of strings, whose strings it returns;
    a failure names the field.
   */
  function ValidateField(kwargs: map<string, Json>, field: string): (r: Result<seq<string>, ValidationError>)
    ensures r.Success? <==>
      field in kwargs && kwargs[field].JArray? &&
      forall i :: 0 <= i < |kwargs[field].items| ==> kwargs[field].items[i].JStr?
    ensures r.Success? ==> kwargs[field] == StringArray(r.value)
    ensures r.Failure? ==> r.error.field == field
  {
    if field !in kwargs then Failure(MissingField(field))
    else match kwargs[field]
      case JArray(items) =>
        (match StringItems(items)
         case Success(xs) => Success(xs)
         case Failure(k) => Failure(NotAString(field, k)))
      case _ => Failure(NotAList(field))
  }

  /**
    `UserProfile(**kwargs)`: each of the three fields must be present and be
    a list of strings; other keys are ignored. The error reported is that of
    the first failing field in declaration order.
   */
  function Validate(kwargs: map<string, Json>): (r: Result<UserProfile, ValidationError>)
    ensures r.Success? ==> Describes(kwargs, r.value)
    ensures r.Failure? ==> r.error.field in ProfileKeys && ValidateField(kwargs, r.error.field).Failure?
  {
    match ValidateField(kwargs, PreferencesKey)
    case Failure(e) => Failure(e)
    case Success(p) =>
      match ValidateField(kwargs, EmotionalPatternsKey)
      case Failure(e) => Failure(e)
      case Success(m) =>
        match ValidateField(kwargs, FactsKey)
        case Failure(e) => Failure(e)
        case Success(f) => Success(UserProfile(p, m, f))
  }

  /** The keyword arguments that describe `p`: each field as a JSON array of strings. */
  function AsKwargs(p: UserProfile): map<string, Json> {
    map[PreferencesKey := StringArray(p.preferences),
        EmotionalPatternsKey := StringArray(p.emotionalPatterns),
        FactsKey := StringArray(p.facts)]
  }

  /** `kwargs` carries, under each field name, exactly the encoding of `p`'s field. */
  ghost predicate Describes(kwargs: map<string, Json>, p: UserProfile) {
    && PreferencesKey in kwargs && kwargs[PreferencesKey] == StringArray(p.preferences)
    && EmotionalPatternsKey in kwargs && kwargs[EmotionalPatternsKey] == StringArray(p.emotionalPatterns)
    && FactsKey in kwargs && kwargs[FactsKey] == StringArray(p.facts)
  }

  lemma {:induction false} StringItemsOfStringArray(xs: seq<string>)
    ensures StringItems(StringArray(xs).items) == Success(xs)
  {
    var r := StringItems(StringArray(xs).items);
    assert r.Success?;
    assert r.value == xs;
  }

  /** A field validates to `xs` exactly when it holds the array of `xs`. */
  lemma ValidateFieldIff(kwargs: map<string, Json>, field: string, xs: seq<string>)
    ensures ValidateField(kwargs, field) == Success(xs) <==>
      (field in kwargs && kwargs[field] == StringArray(xs))
  {
    if field in kwargs && kwargs[field] == StringArray(xs) {
      StringItemsOfStringArray(xs);
    }
    if ValidateField(kwargs, field) == Success(xs) {
      var r := StringItems(kwargs[field].items);
      assert r == Success(xs);
      assert kwargs[field].items == StringArray(xs).items;
    }
  }

  /**
    Validation succeeds with `p` if and only if the three fields hold `p`'s
    lists; any further keys play no part.
   */
  lemma ValidateIff(kwargs: map<string, Json>, p: UserProfile)
    ensures Validate(kwargs) == Success(p) <==> Describes(kwargs, p)
  {
    ValidateFieldIff(kwargs, PreferencesKey, p.preferences);
    ValidateFieldIff(kwargs, EmotionalPatternsKey, p.emotionalPatterns);
    ValidateFieldIff(kwargs, FactsKey, p.facts);
  }

  /** Encoding a profile and validating it gives the profile back. */
  lemma ValidateAsKwargs(p: UserProfile)
    ensures Validate(AsKwargs(p)) == Success(p)
  {
    ValidateIff(AsKwargs(p), p);
  }

  /** None of the three fields has a default: a missing one is a validation failure. */
  lemma MissingFieldFails(kwargs: map<string, Json>, field: string)
    requires field in ProfileKeys && field !in kwargs
    ensures Validate(kwargs).Failure?
  {
  }

  /** A field that holds anything but a list fails validation. */
  lemma NonListFieldFails(kwargs: map<string, Json>, field: string)
    requires field in ProfileKeys && field in kwargs && !kwargs[field].JArray?
    ensures Validate(kwargs).Failure?
  {
  }

  /** A list with an item that is not a string fails validation. */
  lemma NonStringItemFails(kwargs: map<string, Json>, field: string, i: nat)
    requires field in ProfileKeys && field in kwargs && kwargs[field].JArray?
    requires i < |kwargs[field].items| && !kwargs[field].items[i].JStr?
    ensures Validate(kwargs).Failure?
  {
    assert ValidateField(kwargs, field).Failure?;
  }
}
