/** The form validators: string predicates, the message table and the rule-ordered field check. */
module Validators {
  import opened Wrappers
  import opened Text

  // ---------------------------------------------------------------------------------------------
  // Character classes and the two scans a regular expression engine performs for these patterns.

  predicate IsLower(c: char) { 'a' <= c <= 'z' }
  predicate IsUpper(c: char) { 'A' <= c <= 'Z' }
  /** `\d`, which is ASCII-only in JavaScript. */
  predicate IsDigit(c: char) { '0' <= c <= '9' }

  /** Every character of `s` is in the class `p` (a repeated character class). */
  function AllIn(s: string, p: char -> bool): (b: bool)
    ensures b <==> forall i :: 0 <= i < |s| ==> p(s[i])
  {
    if s == [] then true else p(s[0]) && AllIn(s[1..], p)
  }

  /** Some character of `s` is in the class `p` (a lookahead `(?=.*[class])`). */
  function AnyIn(s: string, p: char -> bool): (b: bool)
    ensures b <==> exists i :: 0 <= i < |s| && p(s[i])
  {
    if s == [] then false else p(s[0]) || AnyIn(s[1..], p)
  }

  // ---------------------------------------------------------------------------------------------
  // validateRequired, validateMinLength, validateMaxLength

  /** `value.trim().length > 0` */
  function ValidateRequired(value: string): bool {
    |Trim(value)| > 0
  }

  /** A value passes the required check exactly when it has a character that is not whitespace. */
  lemma ValidateRequiredIff(value: string)
    ensures ValidateRequired(value) <==> exists i :: 0 <= i < |value| && !IsWhitespace(value[i])
  {
    TrimEmptyIffBlank(value);
  }

  /** `value.length >= minLength` */
  function ValidateMinLength(value: string, minLength: int): bool {
    |value| >= minLength
  }

  /** `value.length <= maxLength` */
  function ValidateMaxLength(value: string, maxLength: int): bool {
    |value| <= maxLength
  }

  /** The two length checks are complementary: failing `maxLength n` is passing `minLength n + 1`;
      and a bound passed by a value is passed by everything the value extends. */
  lemma LengthChecks(value: string, more: string, n: int)
    ensures !ValidateMaxLength(value, n) <==> ValidateMinLength(value, n + 1)
    ensures ValidateMinLength(value, n) ==> ValidateMinLength(value + more, n)
    ensures ValidateMaxLength(value + more, n) ==> ValidateMaxLength(value, n)
  {
  }

  // ---------------------------------------------------------------------------------------------
  // validateEmail: /^[^\s@]+@[^\s@]+\.[^\s@]+$/

  /** The class `[^\s@]`. */
  predicate EmailChar(c: char) { !IsWhitespace(c) && c != '@' }

  /** The part `[^\s@]+`: non-empty, no whitespace, no '@'. */
  predicate EmailPart(s: string) { |s| > 0 && AllIn(s, EmailChar) }

  /** Length of the greedy match of `[^\s@]*` at the front of `s`. */
  function EmailPrefix(s: string): (n: nat)
    ensures n <= |s|
    ensures forall i :: 0 <= i < n ==> EmailChar(s[i])
    ensures n < |s| ==> !EmailChar(s[n])
  {
    if |s| > 0 && EmailChar(s[0]) then 1 + EmailPrefix(s[1..]) else 0
  }

  /** The email pattern: the first part runs up to the '@' (it cannot contain one), and what follows
      is made of `[^\s@]` characters and has a '.' with at least one character on each side. */
  function ValidateEmail(email: string): bool {
    var n := EmailPrefix(email);
    0 < n < |email| && email[n] == '@' &&
    var domain := email[n + 1..];
    EmailPrefix(domain) == |domain| && |domain| >= 3 && HasInnerDot(domain)
  }

  /** Some character other than the first and the last is a '.'. */
  predicate HasInnerDot(s: string) {
    exists i :: 0 < i < |s| - 1 && s[i] == '.'
  }

  /** The greedy `[^\s@]*` match stops exactly at the first character outside the class. */
  lemma EmailPrefixStops(head: string, c: char, tail: string)
    requires AllIn(head, EmailChar) && !EmailChar(c)
    ensures EmailPrefix(head + [c] + tail) == |head|
  {
    var s := head + [c] + tail;
    var n := EmailPrefix(s);
    assert s[|head|] == c;
  }

  /** A string made only of `[^\s@]` characters is matched whole. */
  lemma EmailPrefixWhole(s: string)
    requires AllIn(s, EmailChar)
    ensures EmailPrefix(s) == |s|
  {
  }

  /** A valid email splits as `local + "@" + host + "." + tld` with three non-empty parts free of
      whitespace and '@' (the host and the top-level part may hold dots). */
  lemma EmailParts(email: string) returns (local: string, host: string, tld: string)
    requires ValidateEmail(email)
    ensures email == local + "@" + host + "." + tld
    ensures EmailPart(local) && EmailPart(host) && EmailPart(tld)
  {
    var n, j := EmailShape(email);
    local, host, tld := email[..n], email[n + 1..j], email[j + 1..];
    SplitAround(email, n, j, '@', '.');
    EmailCharsSlice(email, 0, n);
    EmailCharsSlice(email, n + 1, j);
    EmailCharsSlice(email, j + 1, |email|);
  }

  /** The positions the email pattern fixes: the '@' that ends the first part and a '.' inside what
      follows it, with every other character outside whitespace and '@'. */
  lemma EmailShape(email: string) returns (at: nat, dot: nat)
    requires ValidateEmail(email)
    ensures 0 < at && at + 1 < dot < |email| - 1 && email[at] == '@' && email[dot] == '.'
    ensures forall i :: 0 <= i < at ==> EmailChar(email[i])
    ensures forall i :: at < i < |email| ==> EmailChar(email[i])
  {
    at := EmailPrefix(email);
    var domain := email[at + 1..];
    var k :| 0 < k < |domain| - 1 && domain[k] == '.';
    dot := at + 1 + k;
    assert forall i :: at < i < |email| ==> email[i] == domain[i - at - 1];
  }

  /** Cutting a string around two positions and putting it back together with the two
      characters found there gives the string back. */
  lemma SplitAround(s: string, i: nat, j: nat, c: char, d: char)
    requires i < j < |s| && s[i] == c && s[j] == d
    ensures s == s[..i] + [c] + s[i + 1..j] + [d] + s[j + 1..]
  {
    assert s[..i] + [c] + s[i + 1..j] == s[..j];
    assert s[..j] + [d] + s[j + 1..] == s;
  }

  /** A slice of `[^\s@]` characters is an `[^\s@]*` string. */
  lemma EmailCharsSlice(s: string, lo: nat, hi: nat)
    requires lo <= hi <= |s| && forall i :: lo <= i < hi ==> EmailChar(s[i])
    ensures AllIn(s[lo..hi], EmailChar)
  {
    assert forall i :: 0 <= i < hi - lo ==> s[lo..hi][i] == s[lo + i];
  }

  /** Conversely, every such concatenation is a valid email. */
  lemma EmailFromParts(local: string, host: string, tld: string)
    requires EmailPart(local) && EmailPart(host) && EmailPart(tld)
    ensures ValidateEmail(local + "@" + host + "." + tld)
  {
    var domain := host + "." + tld;
    var email := local + "@" + domain;
    assert local + "@" + host + "." + tld == email;
    EmailPrefixStops(local, '@', domain);
    assert email[|local| + 1..] == domain;
    AllInJoin(host, '.', tld, EmailChar);
    EmailPrefixWhole(domain);
    assert domain[|host|] == '.';
  }

  /** Joining two strings whose characters satisfy `p` around one more such character keeps it. */
  lemma AllInJoin(a: string, c: char, b: string, p: char -> bool)
    requires AllIn(a, p) && p(c) && AllIn(b, p)
    ensures AllIn(a + [c] + b, p)
  {
    var s := a + [c] + b;
    forall i | 0 <= i < |s| ensures p(s[i]) {
      if i < |a| { assert s[i] == a[i]; }
      else if i > |a| { assert s[i] == b[i - |a| - 1]; }
    }
  }

  /** A valid email holds exactly one '@'. */
  lemma EmailHasOneAt(email: string)
    requires ValidateEmail(email)
    ensures multiset(email)['@'] == 1
  {
    var local, host, tld := EmailParts(email);
    assert '@' !in local && '@' !in host && '@' !in tld by {
      forall i | 0 <= i < |local| ensures local[i] != '@' { assert EmailChar(local[i]); }
      forall i | 0 <= i < |host| ensures host[i] != '@' { assert EmailChar(host[i]); }
      forall i | 0 <= i < |tld| ensures tld[i] != '@' { assert EmailChar(tld[i]); }
    }
    assert multiset(email) == multiset(local) + multiset("@") + multiset(host) + multiset(".") + multiset(tld);
  }

  // ---------------------------------------------------------------------------------------------
  // validatePassword: /^(?=.*[a-z])(?=.*[A-Z])(?=.*\d)[a-zA-Z\d@$!%*?&]{8,}$/

  /** The class `[a-zA-Z\d@$!%*?&]`. */
  predicate PasswordChar(c: char) {
    IsLower(c) || IsUpper(c) || IsDigit(c) || c in "@$!%*?&"
  }

  /** Three lookaheads and a repetition of at least eight. The lookaheads' `.` stops at line
      terminators, but no line terminator is in the repeated class, so the class check subsumes it. */
  function ValidatePassword(password: string): bool {
    AnyIn(password, IsLower) && AnyIn(password, IsUpper) && AnyIn(password, IsDigit) &&
    |password| >= 8 && AllIn(password, PasswordChar)
  }

  /** A password is accepted exactly when it has at least eight characters, all from the allowed
      set, among them a lower-case letter, an upper-case letter and a digit. */
  lemma ValidatePasswordIff(password: string)
    ensures ValidatePassword(password) <==>
      && |password| >= 8
      && (forall i :: 0 <= i < |password| ==> PasswordChar(password[i]))
      && (exists i :: 0 <= i < |password| && IsLower(password[i]))
      && (exists i :: 0 <= i < |password| && IsUpper(password[i]))
      && (exists i :: 0 <= i < |password| && IsDigit(password[i]))
  {
  }

  // ---------------------------------------------------------------------------------------------
  // validatePhoneNumber: /^\+?[\d\s\-\(\)]{10,}$/

  /** The class `[\d\s\-\(\)]`. */
  predicate PhoneChar(c: char) {
    IsDigit(c) || IsWhitespace(c) || c == '-' || c == '(' || c == ')'
  }

  /** The optional '+' is taken when present; not taking it cannot help, since '+' is not in the
      class. What remains must be at least ten characters of the class. */
  function ValidatePhoneNumber(phone: string): bool {
    var body := if |phone| > 0 && phone[0] == '+' then phone[1..] else phone;
    |body| >= 10 && AllIn(body, PhoneChar)
  }

  /** Every optional '+' followed by ten or more class characters is a valid phone number. */
  lemma PhoneFromParts(plus: bool, body: string)
    requires |body| >= 10 && forall i :: 0 <= i < |body| ==> PhoneChar(body[i])
    ensures ValidatePhoneNumber((if plus then "+" else "") + body)
  {
    if plus {
      assert ("+" + body)[1..] == body;
    } else {
      assert !PhoneChar('+');
      assert body[0] != '+' by { assert PhoneChar(body[0]); }
    }
  }

  /** Conversely, a valid phone number is an optional '+' followed by ten or more class characters. */
  lemma PhoneParts(phone: string) returns (plus: bool, body: string)
    requires ValidatePhoneNumber(phone)
    ensures phone == (if plus then "+" else "") + body
    ensures |body| >= 10 && forall i :: 0 <= i < |body| ==> PhoneChar(body[i])
  {
    plus := |phone| > 0 && phone[0] == '+';
    body := if plus then phone[1..] else phone;
    if plus { assert phone == "+" + body; }
  }

  // ---------------------------------------------------------------------------------------------
  // validateUrl depends on the WHATWG URL parser; callers pass it in as a predicate.

  type UrlCheck = string -> bool

  // ---------------------------------------------------------------------------------------------
  // getValidationMessage

  /** The keys of the `messages` object literal. */
  const KnownRules: set<string> :=
    {"required", "email", "password", "minLength", "maxLength", "phone", "url", "match"}

  /** A template literal's rendering of the optional `value` argument. */
  function ValueText(value: Option<int>): string {
    match value
    case Some(n) => IntToString(n)
    case None => "undefined"
  }

  /** The own properties of the `messages` object for this field and value. */
  function MessageTable(field: string, rule: string, value: Option<int>): (m: Option<string>)
    ensures m.Some? <==> rule in KnownRules
    ensures m.Some? ==> m.value != ""
  {
    if rule == "required" then Some(field + " is required")
    else if rule == "email" then Some("Please enter a valid email address")
    else if rule == "password" then Some("Password must be at least 8 characters with uppercase, lowercase, and number")
    else if rule == "minLength" then Some(field + " must be at least " + ValueText(value) + " characters")
    else if rule == "maxLength" then Some(field + " must not exceed " + ValueText(value) + " characters")
    else if rule == "phone" then Some("Please enter a valid phone number")
    else if rule == "url" then Some("Please enter a valid URL")
    else if rule == "match" then Some(field + " do not match")
    else None
  }

  /** The message every unknown rule falls back to, also used for a failing custom rule. */
  function InvalidMessage(field: string): string {
    field + " is invalid"
  }

  /** `messages[rule] || \`${field} is invalid\``, reading only the table's own properties. */
  function GetValidationMessage(field: string, rule: string, value: Option<int>): (m: string)
    ensures rule !in KnownRules ==> m == InvalidMessage(field)
    ensures rule in KnownRules ==> m == MessageTable(field, rule, value).value
  {
    match MessageTable(field, rule, value)
    case Some(text) => if text != "" then text else InvalidMessage(field)
    case None => InvalidMessage(field)
  }

  /** What indexing a JavaScript object literal can give back. */
  datatype LookupValue = Message(text: string) | InheritedMember(name: string)

  /** The names an object literal inherits from `Object.prototype`. */
  const ObjectPrototypeMembers: set<string> :=
    {"constructor", "hasOwnProperty", "isPrototypeOf", "propertyIsEnumerable", "toLocaleString",
     "toString", "valueOf", "__proto__", "__defineGetter__", "__defineSetter__", "__lookupGetter__",
     "__lookupSetter__"}

  /** `getValidationMessage` as written: `messages[rule]` also finds the inherited members, which are
      functions (or, for `__proto__`, the prototype object) and so are truthy and returned. */
  function GetValidationMessageAsWritten(field: string, rule: string, value: Option<int>): (r: LookupValue)
    ensures rule !in ObjectPrototypeMembers ==> r == Message(GetValidationMessage(field, rule, value))
    ensures rule in ObjectPrototypeMembers ==> r == InheritedMember(rule)
  {
    OwnAndInheritedDisjoint(rule);
    if rule in KnownRules then Message(GetValidationMessage(field, rule, value))
    else if rule in ObjectPrototypeMembers then InheritedMember(rule)
    else Message(InvalidMessage(field))
  }

  /** No key of the table shadows an inherited member. */
  lemma OwnAndInheritedDisjoint(rule: string)
    ensures !(rule in KnownRules && rule in ObjectPrototypeMembers)
  {
    if rule in KnownRules {
      assert rule[0] in "remup" && |rule| <= 9;
      assert forall name <- ObjectPrototypeMembers :: name[0] !in "remup" || |name| == 20;
    }
  }

  /** The rule name "toString" makes the as-written lookup return a function, not a string. */
  lemma ToStringRuleIsNotAString()
    ensures GetValidationMessageAsWritten("Email", "toString", None) == InheritedMember("toString")
    ensures GetValidationMessage("Email", "toString", None) == "Email is invalid"
  {
  }

  // ---------------------------------------------------------------------------------------------
  // validateField

  /** The `ValidationRule` interface; an absent boolean is `false`, an absent bound `None`. */
  datatype ValidationRule = ValidationRule(
    required: bool, email: bool, password: bool,
    minLength: Option<int>, maxLength: Option<int>,
    phone: bool, url: bool,
    custom: Option<string -> bool>, customMessage: Option<string>)

  /** The truthiness of an optional numeric bound: absent and `0` are both falsy. */
  predicate IsSet(bound: Option<int>) {
    bound.Some? && bound.value != 0
  }

  /** The truthiness of an optional string: absent and `""` are both falsy. */
  predicate IsNonEmpty(s: Option<string>) {
    s.Some? && s.value != ""
  }

  /** The chain of early returns: each later check is guarded by `value &&`, i.e. a non-empty value. */
  function ValidateField(value: string, rules: ValidationRule, fieldName: string, validateUrl: UrlCheck): (r: Option<string>)
  {
    if rules.required && !ValidateRequired(value) then
      Some(GetValidationMessage(fieldName, "required", None))
    else if value != "" && rules.email && !ValidateEmail(value) then
      Some(GetValidationMessage(fieldName, "email", None))
    else if value != "" && rules.password && !ValidatePassword(value) then
      Some(GetValidationMessage(fieldName, "password", None))
    else if value != "" && IsSet(rules.minLength) && !ValidateMinLength(value, rules.minLength.value) then
      Some(GetValidationMessage(fieldName, "minLength", rules.minLength))
    else if value != "" && IsSet(rules.maxLength) && !ValidateMaxLength(value, rules.maxLength.value) then
      Some(GetValidationMessage(fieldName, "maxLength", rules.maxLength))
    else if value != "" && rules.phone && !ValidatePhoneNumber(value) then
      Some(GetValidationMessage(fieldName, "phone", None))
    else if value != "" && rules.url && !validateUrl(value) then
      Some(GetValidationMessage(fieldName, "url", None))
    else if value != "" && rules.custom.Some? && !rules.custom.value(value) then
      Some(if IsNonEmpty(rules.customMessage) then rules.customMessage.value else InvalidMessage(fieldName))
    else
      None
  }

  /** The rules in the order `validateField` tries them. */
  datatype RuleKind = Required | Email | Password | MinLength | MaxLength | Phone | Url | Custom

  const RuleOrder: seq<RuleKind> := [Required, Email, Password, MinLength, MaxLength, Phone, Url, Custom]

  /** Whether one rule, on its own, rejects the value. */
  predicate Violates(kind: RuleKind, value: string, rules: ValidationRule, validateUrl: UrlCheck) {
    match kind
    case Required => rules.required && !ValidateRequired(value)
    case Email => value != "" && rules.email && !ValidateEmail(value)
    case Password => value != "" && rules.password && !ValidatePassword(value)
    case MinLength => value != "" && IsSet(rules.minLength) && !ValidateMinLength(value, rules.minLength.value)
    case MaxLength => value != "" && IsSet(rules.maxLength) && !ValidateMaxLength(value, rules.maxLength.value)
    case Phone => value != "" && rules.phone && !ValidatePhoneNumber(value)
    case Url => value != "" && rules.url && !validateUrl(value)
    case Custom => value != "" && rules.custom.Some? && !rules.custom.value(value)
  }

  /** The message reported for a rule that rejects. */
  function MessageOf(kind: RuleKind, rules: ValidationRule, fieldName: string): string {
    match kind
    case Required => GetValidationMessage(fieldName, "required", None)
    case Email => GetValidationMessage(fieldName, "email", None)
    case Password => GetValidationMessage(fieldName, "password", None)
    case MinLength => GetValidationMessage(fieldName, "minLength", rules.minLength)
    case MaxLength => GetValidationMessage(fieldName, "maxLength", rules.maxLength)
    case Phone => GetValidationMessage(fieldName, "phone", None)
    case Url => GetValidationMessage(fieldName, "url", None)
    case Custom => if IsNonEmpty(rules.customMessage) then rules.customMessage.value else InvalidMessage(fieldName)
  }

  /** `validateField` reports the message of the first rule, in the fixed order, that rejects the
      value, and `null` exactly when no rule rejects it. */
  lemma ValidateFieldFirstViolation(value: string, rules: ValidationRule, fieldName: string, validateUrl: UrlCheck)
    ensures ValidateField(value, rules, fieldName, validateUrl).None? <==>
              forall k :: 0 <= k < |RuleOrder| ==> !Violates(RuleOrder[k], value, rules, validateUrl)
    ensures ValidateField(value, rules, fieldName, validateUrl).Some? ==>
              exists k :: 0 <= k < |RuleOrder| &&
                Violates(RuleOrder[k], value, rules, validateUrl) &&
                (forall j :: 0 <= j < k ==> !Violates(RuleOrder[j], value, rules, validateUrl)) &&
                ValidateField(value, rules, fieldName, validateUrl).value == MessageOf(RuleOrder[k], rules, fieldName)
    ensures ValidateField(value, rules, fieldName, validateUrl) ==
              Report(FirstViolation(value, rules, validateUrl), rules, fieldName)
  {
    var r := ValidateField(value, rules, fieldName, validateUrl);
    var k := FirstViolation(value, rules, validateUrl);
    if k < |RuleOrder| {
      assert Violates(RuleOrder[k], value, rules, validateUrl);
      assert r.Some? && r.value == MessageOf(RuleOrder[k], rules, fieldName);
    } else {
      assert r.None?;
    }
  }

  /** The outcome named by a first-violation index: that rule's message, or none past the end. */
  function Report(k: nat, rules: ValidationRule, fieldName: string): Option<string> {
    if k < |RuleOrder| then Some(MessageOf(RuleOrder[k], rules, fieldName)) else None
  }

  /** Two rule sets that switch on the same checks have the same first rejecting rule. */
  lemma SameViolationsSameFirst(value: string, a: ValidationRule, b: ValidationRule, validateUrl: UrlCheck)
    requires SameChecks(value, a, b)
    ensures FirstViolation(value, a, validateUrl) == FirstViolation(value, b, validateUrl)
  {
    var ka := FirstViolation(value, a, validateUrl);
    var kb := FirstViolation(value, b, validateUrl);
    if ka < |RuleOrder| { assert Violates(RuleOrder[ka], value, b, validateUrl); }
    if kb < |RuleOrder| { assert Violates(RuleOrder[kb], value, a, validateUrl); }
  }

  /** The index of the first rule in `RuleOrder` that rejects, or `|RuleOrder|`. */
  function FirstViolation(value: string, rules: ValidationRule, validateUrl: UrlCheck): (k: nat)
    ensures k <= |RuleOrder|
    ensures forall j :: 0 <= j < k ==> !Violates(RuleOrder[j], value, rules, validateUrl)
    ensures k < |RuleOrder| ==> Violates(RuleOrder[k], value, rules, validateUrl)
  {
    FirstViolationFrom(0, value, rules, validateUrl)
  }

  function FirstViolationFrom(start: nat, value: string, rules: ValidationRule, validateUrl: UrlCheck): (k: nat)
    requires start <= |RuleOrder|
    requires forall j :: 0 <= j < start ==> !Violates(RuleOrder[j], value, rules, validateUrl)
    ensures start <= k <= |RuleOrder|
    ensures forall j :: 0 <= j < k ==> !Violates(RuleOrder[j], value, rules, validateUrl)
    ensures k < |RuleOrder| ==> Violates(RuleOrder[k], value, rules, validateUrl)
    decreases |RuleOrder| - start
  {
    if start == |RuleOrder| || Violates(RuleOrder[start], value, rules, validateUrl) then start
    else FirstViolationFrom(start + 1, value, rules, validateUrl)
  }

  /** A required rule on a blank value wins over every other rule. */
  lemma RequiredComesFirst(value: string, rules: ValidationRule, fieldName: string, validateUrl: UrlCheck)
    requires rules.required && forall i :: 0 <= i < |value| ==> IsWhitespace(value[i])
    ensures ValidateField(value, rules, fieldName, validateUrl) == Some(fieldName + " is required")
  {
    ValidateRequiredIff(value);
  }

  /** An empty value that is not required passes, whatever other rules are set. */
  lemma EmptyOptionalPasses(rules: ValidationRule, fieldName: string, validateUrl: UrlCheck)
    requires !rules.required
    ensures ValidateField("", rules, fieldName, validateUrl) == None
  {
  }

  /** Bounds of `0` are treated as unset, because the guard tests their truthiness. */
  lemma ZeroMinLengthIsUnset(value: string, rules: ValidationRule, fieldName: string, validateUrl: UrlCheck)
    ensures ValidateField(value, rules.(minLength := Some(0)), fieldName, validateUrl) ==
            ValidateField(value, rules.(minLength := None), fieldName, validateUrl)
  {
    SameChecksSameResult(value, rules.(minLength := Some(0)), rules.(minLength := None), fieldName, validateUrl);
  }

  /** The same for `maxLength: 0`. */
  lemma ZeroMaxLengthIsUnset(value: string, rules: ValidationRule, fieldName: string, validateUrl: UrlCheck)
    ensures ValidateField(value, rules.(maxLength := Some(0)), fieldName, validateUrl) ==
            ValidateField(value, rules.(maxLength := None), fieldName, validateUrl)
  {
    SameChecksSameResult(value, rules.(maxLength := Some(0)), rules.(maxLength := None), fieldName, validateUrl);
  }

  /** Two rule sets that switch on the same checks, with the same bounds where a bound is in force
      and a custom check that gives the same verdict on `value`. */
  predicate SameChecks(value: string, a: ValidationRule, b: ValidationRule) {
    a.required == b.required && a.email == b.email && a.password == b.password &&
    IsSet(a.minLength) == IsSet(b.minLength) && (IsSet(a.minLength) ==> a.minLength == b.minLength) &&
    IsSet(a.maxLength) == IsSet(b.maxLength) && (IsSet(a.maxLength) ==> a.maxLength == b.maxLength) &&
    a.phone == b.phone && a.url == b.url && a.customMessage == b.customMessage &&
    a.custom.Some? == b.custom.Some? && (a.custom.Some? ==> a.custom.value(value) == b.custom.value(value))
  }

  /** `validateField` sees a rule set only through the checks it switches on. */
  lemma SameChecksSameResult(value: string, a: ValidationRule, b: ValidationRule, fieldName: string, validateUrl: UrlCheck)
    requires SameChecks(value, a, b)
    ensures ValidateField(value, a, fieldName, validateUrl) == ValidateField(value, b, fieldName, validateUrl)
  {
    ValidateFieldFirstViolation(value, a, fieldName, validateUrl);
    ValidateFieldFirstViolation(value, b, fieldName, validateUrl);
    SameViolationsSameFirst(value, a, b, validateUrl);
    var k := FirstViolation(value, a, validateUrl);
    if k < |RuleOrder| {
      assert MessageOf(RuleOrder[k], a, fieldName) == MessageOf(RuleOrder[k], b, fieldName);
    }
  }
}
