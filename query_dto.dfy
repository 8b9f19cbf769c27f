/** The request body of a query (src/modules/query/query.dto.ts): the
    `message` property and the four class-validator constraints on it. A
    request is accepted when no constraint reports a violation. */
module QueryDto {
  import opened JsValues

  const MinMessageLength := 3
  const MaxMessageLength := 250

  /** The constraint a message breaks. */
  datatype Violation = NotString | TooShort | TooLong | InvalidCharacters

  /** The message each constraint reports; the first is the library's
      default for `@IsString()`, the others are set in the class. */
  function Message(v: Violation): string {
    match v
    case NotString => "message must be a string"
    case TooShort => "Query must be at least 3 characters long"
    case TooLong => "Query cannot exceed 250 characters"
    case InvalidCharacters => "Query contains invalid characters"
  }

  /** A character matched by the `\s` escape of a JavaScript regular
      expression: the ECMAScript white space and line terminators. */
  predicate IsJsWhitespace(c: char) {
    c == '\t' || c == '\n' || c == '\U{B}' || c == '\U{C}' || c == '\r' || c == ' ' ||
    c == '\U{A0}' || c == '\U{1680}' || ('\U{2000}' <= c <= '\U{200A}') ||
    c == '\U{2028}' || c == '\U{2029}' || c == '\U{202F}' || c == '\U{205F}' || c == '\U{3000}' || c == '\U{FEFF}'
  }

  /** The character class `[a-zA-Z0-9\s\[\](),.?!-]`. */
  predicate Allowed(c: char) {
    ('a' <= c <= 'z') || ('A' <= c <= 'Z') || ('0' <= c <= '9') || IsJsWhitespace(c) ||
    c == '[' || c == ']' || c == '(' || c == ')' || c == ',' || c == '.' || c == '?' || c == '!' || c == '-'
  }

  /** The pattern `^[...]+$`: one allowed character, then either the end or
      another match of the same pattern. */
  predicate MatchesPattern(s: string) {
    |s| >= 1 && Allowed(s[0]) && (|s| == 1 || MatchesPattern(s[1..]))
  }

  /** The pattern matches exactly the non-empty strings of allowed characters. */
  lemma {:induction false} MatchesPatternExactly(s: string)
    ensures MatchesPattern(s) <==> s != [] && forall i :: 0 <= i < |s| ==> Allowed(s[i])
  {
    if |s| > 1 {
      MatchesPatternExactly(s[1..]);
      if forall i :: 0 <= i < |s| ==> Allowed(s[i]) {
        assert forall i :: 0 <= i < |s[1..]| ==> Allowed(s[1..][i]) by {
          forall i | 0 <= i < |s[1..]| ensures Allowed(s[1..][i]) {
            assert s[1..][i] == s[i + 1];
          }
        }
      }
      if MatchesPattern(s) {
        forall i | 0 <= i < |s| ensures Allowed(s[i]) {
          if i > 0 {
            assert s[i] == s[1..][i - 1];
          }
        }
      }
    }
  }

  /** The text presentation and emoji presentation variation selectors. */
  predicate IsVariationSelector(c: char) {
    c == '\U{FE0E}' || c == '\U{FE0F}'
  }

  /** The length validator.js's `isLength` measures: the UTF-16 length less
      one per surrogate pair and one per variation selector. A surrogate
      pair is one character here, so only the selectors are discounted. */
  function ValidatorLength(s: string): (n: nat)
    ensures n <= |s|
    ensures n == |s| <==> forall i :: 0 <= i < |s| ==> !IsVariationSelector(s[i])
  {
    if s == [] then 0
    else
      assert forall i :: 1 <= i < |s| ==> s[i] == s[1..][i - 1];
      (if IsVariationSelector(s[0]) then 0 else 1) + ValidatorLength(s[1..])
  }

  /** No character the pattern allows is a variation selector, so on a
      string of allowed characters the validator's length is its length. */
  lemma AllowedLength(s: string)
    requires forall i :: 0 <= i < |s| ==> Allowed(s[i])
    ensures ValidatorLength(s) == |s|
  {
    forall i | 0 <= i < |s| ensures !IsVariationSelector(s[i]) {
      assert Allowed(s[i]);
    }
  }

  /** Every constraint `message` breaks. class-validator runs all four; on
      anything but a string (including a missing property) each one fails. */
  function Violations(message: Option<Json>): (vs: set<Violation>)
    ensures NotString in vs <==> !(message.Some? && message.value.JStr?)
    ensures NotString in vs ==> vs == {NotString, TooShort, TooLong, InvalidCharacters}
    ensures vs == {} ==> MinMessageLength <= |message.value.s| <= MaxMessageLength
  {
    if !(message.Some? && message.value.JStr?) then {NotString, TooShort, TooLong, InvalidCharacters}
    else
      var s := message.value.s;
      assert MatchesPattern(s) ==> ValidatorLength(s) == |s| by {
        MatchesPatternExactly(s);
        if MatchesPattern(s) { AllowedLength(s); }
      }
      (if ValidatorLength(s) < MinMessageLength then {TooShort} else {}) +
      (if ValidatorLength(s) > MaxMessageLength then {TooLong} else {}) +
      (if !MatchesPattern(s) then {InvalidCharacters} else {})
  }

  /** The messages of the validation error for `message`. */
  function ErrorMessages(message: Option<Json>): (ms: set<string>)
    ensures forall v :: v in Violations(message) ==> Message(v) in ms
    ensures forall m :: m in ms ==> exists v :: v in Violations(message) && Message(v) == m
  {
    set v | v in Violations(message) :: Message(v)
  }

  predicate Accepted(message: Option<Json>) {
    Violations(message) == {}
  }

  /** A message is accepted exactly when it is a string of 3 to 250
      characters, each a letter, digit, white space or one of `[](),.?!-`. */
  lemma AcceptedExactly(message: Option<Json>)
    ensures Accepted(message) <==>
      message.Some? && message.value.JStr? &&
      MinMessageLength <= |message.value.s| <= MaxMessageLength &&
      forall i :: 0 <= i < |message.value.s| ==> Allowed(message.value.s[i])
  {
    if message.Some? && message.value.JStr? {
      MatchesPatternExactly(message.value.s);
      if Accepted(message) {
        assert TooShort !in Violations(message);
        assert TooLong !in Violations(message);
        assert InvalidCharacters !in Violations(message);
      }
    } else {
      assert NotString in Violations(message);
    }
  }

  /** Each violation is reported for exactly its own cause: a string is too
      short below 3 characters and too long above 250, both as the
      validator measures length, and of invalid characters when it is empty
      or holds a character outside the class. */
  lemma ViolationCauses(s: string)
    ensures NotString !in Violations(Some(JStr(s)))
    ensures TooShort in Violations(Some(JStr(s))) <==> ValidatorLength(s) < 3
    ensures TooLong in Violations(Some(JStr(s))) <==> ValidatorLength(s) > 250
    ensures InvalidCharacters in Violations(Some(JStr(s))) <==>
      (s == [] || exists i :: 0 <= i < |s| && !Allowed(s[i]))
    ensures !(TooShort in Violations(Some(JStr(s))) && TooLong in Violations(Some(JStr(s))))
  {
    MatchesPatternExactly(s);
  }

  /** Variation selectors do not count towards the length: two letters and
      a selector are too short, and hold a character outside the class. */
  lemma VariationSelectorDiscounted()
    ensures ValidatorLength("ab\U{FE0F}") == 2
    ensures Violations(Some(JStr("ab\U{FE0F}"))) == {TooShort, InvalidCharacters}
  {
    var s := "ab\U{FE0F}";
    assert s[1..] == "b\U{FE0F}" && s[1..][1..] == "\U{FE0F}" && s[1..][1..][1..] == [];
    assert !Allowed(s[2]);
    MatchesPatternExactly(s);
    var vs := Violations(Some(JStr(s)));
    assert TooShort in vs && InvalidCharacters in vs;
  }

  /** The empty string breaks both the minimum length and the pattern, and
      nothing else. */
  lemma EmptyMessageRejected()
    ensures Violations(Some(JStr(""))) == {TooShort, InvalidCharacters}
    ensures ErrorMessages(Some(JStr(""))) == {"Query must be at least 3 characters long", "Query contains invalid characters"}
  {
    var vs := Violations(Some(JStr("")));
    assert TooShort in vs && InvalidCharacters in vs;
    assert vs == {TooShort, InvalidCharacters};
    assert Message(TooShort) in ErrorMessages(Some(JStr("")));
    assert Message(InvalidCharacters) in ErrorMessages(Some(JStr("")));
  }

  /** Anything but a string, and a missing message, breaks all four
      constraints. */
  lemma NonStringRejected(message: Option<Json>)
    requires !(message.Some? && message.value.JStr?)
    ensures Violations(message) == {NotString, TooShort, TooLong, InvalidCharacters}
    ensures |ErrorMessages(message)| == 4
  {
    var ms := ErrorMessages(message);
    assert Message(NotString) in ms && Message(TooShort) in ms && Message(TooLong) in ms && Message(InvalidCharacters) in ms;
    assert ms == {Message(NotString), Message(TooShort), Message(TooLong), Message(InvalidCharacters)};
  }
}
