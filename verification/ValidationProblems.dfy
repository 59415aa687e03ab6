/** Validation answers: a report reduced to bounded items that repeat nothing the caller wrote. */
module ValidationProblems {
  import opened Text

  const MAX_REPORTED_VALIDATION_ITEMS := 20
  const MAX_PATH_SEGMENTS := 12
  const MAX_PATH_LENGTH := 200
  const MAX_PATH_INDEX := 1_000_000

  const TRANSPORT_FIELD_NAMES: seq<string> :=
    ["body", "query", "path", "header", "cookie",
     "community_id", "messages",
     "adapter", "channel_message_id", "contributor_id", "sent_at", "text", "attachments",
     "evidence_id", "media_type", "byte_length", "sha256",
     "limit", "cursor", "operation_id", "Idempotency-Key", "X-Chorus-Demo-Actor",
     "case_id", "mandate_id",
     "expected_case_version",
     "expected_version", "decision", "fact_grants", "identity_grant", "expires_at",
     "fact_id", "max_scope", "allow_safe_transformation", "externally_shareable"]

  predicate Declared(name: string) { name in TRANSPORT_FIELD_NAMES }

  datatype ValidationCategory =
    | MISSING | UNEXPECTED_FIELD | WRONG_TYPE | OUT_OF_RANGE | MALFORMED_SYNTAX | NOT_ALLOWED_VALUE | INVALID_VALUE

  const CATEGORY_BY_TOKEN: seq<(string, ValidationCategory)> :=
    [("missing", MISSING), ("extra_forbidden", UNEXPECTED_FIELD),
     ("json_invalid", MALFORMED_SYNTAX), ("json_type", MALFORMED_SYNTAX), ("jsondecode", MALFORMED_SYNTAX),
     ("too_short", OUT_OF_RANGE), ("too_long", OUT_OF_RANGE), ("greater_than", OUT_OF_RANGE),
     ("less_than", OUT_OF_RANGE), ("multiple_of", OUT_OF_RANGE),
     ("literal_error", NOT_ALLOWED_VALUE), ("enum", NOT_ALLOWED_VALUE),
     ("pattern_mismatch", INVALID_VALUE), ("finite_number", INVALID_VALUE), ("uuid", INVALID_VALUE),
     ("datetime", INVALID_VALUE),
     ("parsing", WRONG_TYPE), ("type", WRONG_TYPE)]

  /** One element of a report's location. */
  datatype Segment = BoolSegment(truth: bool) | IntSegment(number: int) | StrSegment(text: string) | OtherSegment(shown: string)

  /** One error of a report; a type that is not a string or a location that is not a list reads as absent. */
  datatype Entry = Entry(errorType: Option<string>, loc: Option<seq<Segment>>, others: seq<(string, string)>)

  datatype ValidationItem = ValidationItem(code: string, path: string, category: ValidationCategory)

  // ---------- Category ----------

  function CategoryFrom(errorType: string, rules: seq<(string, ValidationCategory)>): ValidationCategory {
    if rules == [] then INVALID_VALUE
    else if Contains(rules[0].0, errorType) then rules[0].1
    else CategoryFrom(errorType, rules[1..])
  }

  function CategoryOf(errorType: string): ValidationCategory { CategoryFrom(errorType, CATEGORY_BY_TOKEN) }

  method Categorise(errorType: string) returns (category: ValidationCategory)
    ensures category == CategoryOf(errorType)
  {
    for i := 0 to |CATEGORY_BY_TOKEN|
      invariant CategoryFrom(errorType, CATEGORY_BY_TOKEN[i..]) == CategoryOf(errorType)
    {
      if Contains(CATEGORY_BY_TOKEN[i].0, errorType) { return CATEGORY_BY_TOKEN[i].1; }
      assert CATEGORY_BY_TOKEN[i..][1..] == CATEGORY_BY_TOKEN[i + 1..];
    }
    category := INVALID_VALUE;
  }

  /** The first rule whose token occurs decides, and without one the category is the catch-all. */
  lemma {:induction false} FirstMatchDecides(errorType: string, rules: seq<(string, ValidationCategory)>, i: nat)
    requires i < |rules| && Occurs(rules[i].0, errorType)
    requires forall k :: 0 <= k < i ==> !Occurs(rules[k].0, errorType)
    ensures CategoryFrom(errorType, rules) == rules[i].1
  {
    if 0 < i {
      assert rules[1..][i - 1] == rules[i];
      assert forall k :: 0 <= k < i - 1 ==> rules[1..][k] == rules[k + 1];
      FirstMatchDecides(errorType, rules[1..], i - 1);
    }
  }

  lemma {:induction false} NoMatchIsInvalid(errorType: string, rules: seq<(string, ValidationCategory)>)
    requires forall k :: 0 <= k < |rules| ==> !Occurs(rules[k].0, errorType)
    ensures CategoryFrom(errorType, rules) == INVALID_VALUE
  {
    if rules != [] {
      assert forall k :: 0 <= k < |rules| - 1 ==> rules[1..][k] == rules[k + 1];
      NoMatchIsInvalid(errorType, rules[1..]);
    }
  }

  lemma CategoryStep(errorType: string, i: nat)
    requires i < |CATEGORY_BY_TOKEN|
    ensures CategoryFrom(errorType, CATEGORY_BY_TOKEN[i..]) ==
            if Occurs(CATEGORY_BY_TOKEN[i].0, errorType) then CATEGORY_BY_TOKEN[i].1
            else CategoryFrom(errorType, CATEGORY_BY_TOKEN[i + 1..])
  {
    assert CATEGORY_BY_TOKEN[i..][0] == CATEGORY_BY_TOKEN[i] && CATEGORY_BY_TOKEN[i..][1..] == CATEGORY_BY_TOKEN[i + 1..];
  }

  lemma LastCategories(e: string)
    ensures CategoryFrom(e, CATEGORY_BY_TOKEN[10..]) ==
            if Occurs("literal_error", e) || Occurs("enum", e) then NOT_ALLOWED_VALUE
            else if Occurs("pattern_mismatch", e) || Occurs("finite_number", e) || Occurs("uuid", e) ||
                    Occurs("datetime", e) then INVALID_VALUE
            else if Occurs("parsing", e) || Occurs("type", e) then WRONG_TYPE
            else INVALID_VALUE
  {
    NoMatchIsInvalid(e, CATEGORY_BY_TOKEN[18..]);
    hide CategoryFrom, Occurs;
    CategoryStep(e, 10); CategoryStep(e, 11); CategoryStep(e, 12); CategoryStep(e, 13);
    CategoryStep(e, 14); CategoryStep(e, 15); CategoryStep(e, 16); CategoryStep(e, 17);
  }

  lemma MiddleCategories(e: string)
    ensures CategoryFrom(e, CATEGORY_BY_TOKEN[5..]) ==
            if Occurs("too_short", e) || Occurs("too_long", e) || Occurs("greater_than", e) || Occurs("less_than", e) ||
               Occurs("multiple_of", e) then OUT_OF_RANGE
            else CategoryFrom(e, CATEGORY_BY_TOKEN[10..])
  {
    hide CategoryFrom, Occurs;
    CategoryStep(e, 5); CategoryStep(e, 6); CategoryStep(e, 7); CategoryStep(e, 8); CategoryStep(e, 9);
  }

  /** What each kind of error is called, in the order the kinds are tried. */
  lemma CategoriesExactly(e: string)
    ensures CategoryOf(e) ==
            if Occurs("missing", e) then MISSING
            else if Occurs("extra_forbidden", e) then UNEXPECTED_FIELD
            else if Occurs("json_invalid", e) || Occurs("json_type", e) || Occurs("jsondecode", e) then MALFORMED_SYNTAX
            else if Occurs("too_short", e) || Occurs("too_long", e) || Occurs("greater_than", e) ||
                    Occurs("less_than", e) || Occurs("multiple_of", e) then OUT_OF_RANGE
            else if Occurs("literal_error", e) || Occurs("enum", e) then NOT_ALLOWED_VALUE
            else if Occurs("pattern_mismatch", e) || Occurs("finite_number", e) || Occurs("uuid", e) ||
                    Occurs("datetime", e) then INVALID_VALUE
            else if Occurs("parsing", e) || Occurs("type", e) then WRONG_TYPE
            else INVALID_VALUE
  {
    hide CategoryFrom, Occurs;
    assert CATEGORY_BY_TOKEN[0..] == CATEGORY_BY_TOKEN;
    CategoryStep(e, 0); CategoryStep(e, 1); CategoryStep(e, 2); CategoryStep(e, 3); CategoryStep(e, 4);
    MiddleCategories(e);
    LastCategories(e);
  }

  // ---------- Code ----------

  /** `[a-z][a-z0-9_.]{0,63}` */
  predicate SafeErrorType(s: string) {
    && 1 <= |s| <= 64 && 'a' <= s[0] <= 'z'
    && forall i :: 0 <= i < |s| ==> 'a' <= s[i] <= 'z' || IsDigit(s[i]) || s[i] == '_' || s[i] == '.'
  }

  function Upper(c: char): char { if 'a' <= c <= 'z' then (c as int - 'a' as int + 'A' as int) as char else c }

  function SafeCode(errorType: string): string {
    if SafeErrorType(errorType)
    then seq(|errorType|, i requires 0 <= i < |errorType| => if errorType[i] == '.' then '_' else Upper(errorType[i]))
    else "INVALID"
  }

  /** A code is 1 to 64 capitals, digits and underscores, whatever the library reported. */
  lemma CodesAreClosed(errorType: string)
    ensures 1 <= |SafeCode(errorType)| <= 64
    ensures forall i :: 0 <= i < |SafeCode(errorType)| ==>
              var c := SafeCode(errorType)[i]; 'A' <= c <= 'Z' || IsDigit(c) || c == '_'
  {
  }

  function CodeChar(c: char): char {
    if c == '.' then '_'
    else if 'a' <= c <= 'z' then ('A' as int + (c as int - 'a' as int)) as char
    else c
  }

  /** Character by character: a letter becomes its capital, a dot an underscore, and the rest stay; anything else is one word. */
  lemma CodesExactly(errorType: string)
    ensures SafeCode(errorType) ==
            if (&& 1 <= |errorType| <= 64 && 'a' <= errorType[0] <= 'z'
                && forall i :: 0 <= i < |errorType| ==>
                     'a' <= errorType[i] <= 'z' || '0' <= errorType[i] <= '9' || errorType[i] == '_' || errorType[i] == '.')
            then seq(|errorType|, i requires 0 <= i < |errorType| => CodeChar(errorType[i]))
            else "INVALID"
  {
  }

  // ---------- Path ----------

  function SegmentText(raw: Segment): string {
    match raw
    case BoolSegment(_) => "?"
    case IntSegment(n) => if 0 <= n < MAX_PATH_INDEX then Decimal(n) else "?"
    case StrSegment(s) => if Declared(s) then s else "?"
    case OtherSegment(_) => "?"
  }

  function Take<A>(s: seq<A>, n: nat): seq<A> { if |s| <= n then s else s[..n] }

  function SegmentTexts(location: seq<Segment>): (r: seq<string>)
    ensures |r| == |location| && forall i :: 0 <= i < |r| ==> r[i] == SegmentText(location[i])
  {
    seq(|location|, i requires 0 <= i < |location| => SegmentText(location[i]))
  }

  lemma SegmentTextsExtend(location: seq<Segment>, i: nat)
    requires i < |location|
    ensures SegmentTexts(location[..i + 1]) == SegmentTexts(location[..i]) + [SegmentText(location[i])]
  {
    hide SegmentText;
  }

  function PathSegments(location: seq<Segment>): seq<string> {
    SegmentTexts(Take(location, MAX_PATH_SEGMENTS)) + if MAX_PATH_SEGMENTS < |location| then ["..."] else []
  }

  function PathOf(location: seq<Segment>): string {
    var path := Take(Join(".", PathSegments(location)), MAX_PATH_LENGTH);
    if path == "" then "body" else path
  }

  method SafePath(location: seq<Segment>) returns (path: string)
    ensures path == PathOf(location)
  {
    hide Declared, Join;
    var segments: seq<string> := [];
    var shown := Take(location, MAX_PATH_SEGMENTS);
    for i := 0 to |shown|
      invariant segments == SegmentTexts(shown[..i])
    {
      var raw := shown[i];
      SegmentTextsExtend(shown, i);
      if raw.BoolSegment? {
        segments := segments + ["?"];
      } else if raw.IntSegment? {
        segments := segments + [if 0 <= raw.number < MAX_PATH_INDEX then Decimal(raw.number) else "?"];
      } else if raw.StrSegment? && Declared(raw.text) {
        segments := segments + [raw.text];
      } else {
        segments := segments + ["?"];
      }
    }
    assert shown[..|shown|] == shown;
    if MAX_PATH_SEGMENTS < |location| {
      segments := segments + ["..."];
    }
    assert segments == PathSegments(location);
    path := Take(Join(".", segments), MAX_PATH_LENGTH);
    if path == "" { path := "body"; }
  }

  predicate Index(s: string) {
    s != "" && (forall i :: 0 <= i < |s| ==> IsDigit(s[i])) && ParseDecimal(s) < MAX_PATH_INDEX
  }

  /** The only words a path is made of. */
  predicate Word(s: string) { Declared(s) || Index(s) || s == "?" || s == "..." }

  lemma NamesAreLong(name: string)
    requires Declared(name)
    ensures 4 <= |name|
  {
  }

  lemma BodyIsDeclared()
    ensures Declared("body")
  {
    assert TRANSPORT_FIELD_NAMES[0] == "body";
  }

  lemma NamesAreWords()
    ensures !Declared("") && !Declared("?") && Declared("body")
  {
    hide Declared;
    if Declared("") { NamesAreLong(""); }
    if Declared("?") { NamesAreLong("?"); }
    BodyIsDeclared();
  }

  lemma SegmentIsWord(raw: Segment)
    ensures Word(SegmentText(raw)) && SegmentText(raw) != ""
  {
    hide Declared;
    NamesAreWords();
    if raw.IntSegment? && 0 <= raw.number < MAX_PATH_INDEX { DecimalRoundTrip(raw.number); }
  }

  lemma JoinStarts(sep: string, parts: seq<string>)
    requires parts != []
    ensures parts[0] <= Join(sep, parts)
  {
  }

  /** The word one element of a location is shown as. */
  predicate Shows(word: string, raw: Segment) {
    match raw
    case StrSegment(name) => if Declared(name) then word == name else word == "?"
    case IntSegment(n) => if 0 <= n < 1_000_000 then Index(word) && ParseDecimal(word) == n else word == "?"
    case _ => word == "?"
  }

  lemma SegmentShows(raw: Segment)
    ensures Shows(SegmentText(raw), raw)
  {
    hide Declared;
    if raw.IntSegment? && 0 <= raw.number < 1_000_000 { DecimalRoundTrip(raw.number); }
  }

  /**
   A path is a non-empty prefix, at most 200 long, of a dot-join of words: one for each of the first
   twelve elements, a declared name or a bounded index for itself and `?` for anything else, and
   `...` when there are more; or `body` for no location.
   */
  lemma PathsAreClosed(location: seq<Segment>) returns (words: seq<string>)
    ensures forall w :: w in words ==> Word(w)
    ensures PathOf(location) != "" && |PathOf(location)| <= 200 && PathOf(location) <= Join(".", words)
    ensures |Join(".", words)| <= 200 ==> PathOf(location) == Join(".", words)
    ensures 200 < |Join(".", words)| ==> |PathOf(location)| == 200
    ensures location == [] ==> words == ["body"]
    ensures location != [] ==>
              && |words| == (if |location| <= 12 then |location| else 13)
              && (forall i :: 0 <= i < |words| && i < 12 ==> Shows(words[i], location[i]))
              && (12 < |location| ==> words[12] == "...")
  {
    hide Declared, Shows;
    NamesAreWords();
    var segments := PathSegments(location);
    if location == [] {
      words := ["body"];
    } else {
      words := segments;
      forall i | 0 <= i < |words| ensures Word(words[i]) && (i < 12 ==> Shows(words[i], location[i])) {
        if i < |Take(location, MAX_PATH_SEGMENTS)| {
          SegmentIsWord(location[i]);
          SegmentShows(location[i]);
        }
      }
      SegmentIsWord(location[0]);
      JoinStarts(".", segments);
      assert segments[0] == SegmentText(location[0]);
    }
  }

  /** The names that may be said out loud. */
  lemma NamesExactly(name: string)
    ensures Declared(name) <==>
            name in {"body", "query", "path", "header", "cookie", "community_id", "messages", "adapter", "channel_message_id",
                     "contributor_id", "sent_at", "text", "attachments", "evidence_id", "media_type", "byte_length", "sha256",
                     "limit", "cursor", "operation_id", "Idempotency-Key", "X-Chorus-Demo-Actor", "case_id", "mandate_id",
                     "expected_case_version", "expected_version", "decision", "fact_grants", "identity_grant", "expires_at",
                     "fact_id", "max_scope", "allow_safe_transformation", "externally_shareable"}
  {
  }

  // ---------- Items ----------

  function ItemOf(e: Entry): ValidationItem {
    var errorType := if e.errorType.Some? then e.errorType.value else "";
    var location := if e.loc.Some? then e.loc.value else [];
    ValidationItem(SafeCode(errorType), PathOf(location), CategoryOf(errorType))
  }

  function Items(report: seq<Entry>): (r: seq<ValidationItem>)
    ensures |r| == |report| && forall i :: 0 <= i < |r| ==> r[i] == ItemOf(report[i])
  {
    seq(|report|, i requires 0 <= i < |report| => ItemOf(report[i]))
  }

  lemma ItemsExtend(report: seq<Entry>, i: nat)
    requires i < |report|
    ensures Items(report[..i + 1]) == Items(report[..i]) + [ItemOf(report[i])]
  {
    hide ItemOf;
  }

  function SafeItems(report: seq<Entry>): seq<ValidationItem> { Items(Take(report, MAX_REPORTED_VALIDATION_ITEMS)) }

  method SafeValidationItems(report: seq<Entry>) returns (items: seq<ValidationItem>)
    ensures items == SafeItems(report)
  {
    hide SafeCode, PathOf, CategoryOf;
    items := [];
    var shown := Take(report, MAX_REPORTED_VALIDATION_ITEMS);
    for i := 0 to |shown|
      invariant items == Items(shown[..i])
    {
      var e := shown[i];
      ItemsExtend(shown, i);
      var errorType := if e.errorType.Some? then e.errorType.value else "";
      var location := if e.loc.Some? then e.loc.value else [];
      var path := SafePath(location);
      var category := Categorise(errorType);
      items := items + [ValidationItem(SafeCode(errorType), path, category)];
    }
    assert shown[..|shown|] == shown;
  }

  /** The answer's body: the items, and how many errors they leave out. */
  datatype Problem = Problem(errors: seq<ValidationItem>, omitted: nat)

  function ProblemOf(report: Option<seq<Entry>>): Problem {
    var rawErrors := if report.Some? then report.value else [];
    Problem(SafeItems(rawErrors), |rawErrors| - |SafeItems(rawErrors)|)
  }

  /** An unreadable report is never quoted. */
  method ValidationProblem(report: Option<seq<Entry>>) returns (p: Problem)
    ensures p == ProblemOf(report)
  {
    var rawErrors := if report.Some? then report.value else [];
    var items := SafeValidationItems(rawErrors);
    var omitted := |rawErrors| - |items|;
    p := Problem(items, if 0 < omitted then omitted else 0);
  }

  // ---------- Non-interference ----------

  /** What is neither a declared name nor a bounded index becomes one symbol, whatever it was. */
  function RedactSegment(raw: Segment): Segment {
    if raw.StrSegment? && Declared(raw.text) then raw
    else if raw.IntSegment? && 0 <= raw.number < MAX_PATH_INDEX then raw
    else StrSegment("?")
  }

  function RedactLocation(location: seq<Segment>): seq<Segment> {
    seq(|location|, i requires 0 <= i < |location| => RedactSegment(location[i]))
  }

  /** A report without its messages, inputs, contexts and links, and without undeclared names. */
  function Redact(report: seq<Entry>): (r: seq<Entry>)
    ensures |r| == |report|
  {
    seq(|report|, i requires 0 <= i < |report| =>
      Entry(report[i].errorType, if report[i].loc.Some? then Some(RedactLocation(report[i].loc.value)) else None, []))
  }

  lemma RedactedPath(location: seq<Segment>)
    ensures PathOf(RedactLocation(location)) == PathOf(location)
  {
    hide Declared;
    NamesAreWords();
    var shown, hidden := Take(location, MAX_PATH_SEGMENTS), Take(RedactLocation(location), MAX_PATH_SEGMENTS);
    assert SegmentTexts(hidden) == SegmentTexts(shown);
  }

  lemma RedactedItems(report: seq<Entry>)
    ensures SafeItems(Redact(report)) == SafeItems(report)
  {
    hide SafeCode, PathOf, CategoryOf, RedactLocation;
    var shown, hidden := Take(report, MAX_REPORTED_VALIDATION_ITEMS), Take(Redact(report), MAX_REPORTED_VALIDATION_ITEMS);
    forall i | 0 <= i < |shown| ensures ItemOf(hidden[i]) == ItemOf(shown[i]) {
      if shown[i].loc.Some? { RedactedPath(shown[i].loc.value); }
    }
  }

  /** Two reports that are alike once redacted are answered alike, whatever else they hold. */
  lemma AnswersDoNotInterfere(a: seq<Entry>, b: seq<Entry>)
    requires Redact(a) == Redact(b)
    ensures ProblemOf(Some(a)) == ProblemOf(Some(b))
  {
    RedactedItems(a);
    RedactedItems(b);
  }

  /** Nothing is lost: the first twenty errors in order, each with its own code, path and category, and the rest numbered. */
  lemma NothingUncounted(report: seq<Entry>)
    ensures var p := ProblemOf(Some(report));
            && |p.errors| == (if |report| <= 20 then |report| else 20) && |p.errors| + p.omitted == |report|
            && forall i :: 0 <= i < |p.errors| ==>
                 && p.errors[i].code == SafeCode(if report[i].errorType.Some? then report[i].errorType.value else "")
                 && p.errors[i].path == PathOf(if report[i].loc.Some? then report[i].loc.value else [])
                 && p.errors[i].category == CategoryOf(if report[i].errorType.Some? then report[i].errorType.value else "")
    ensures ProblemOf(None) == Problem([], 0)
  {
    hide SafeCode, PathOf, CategoryOf;
  }
}
