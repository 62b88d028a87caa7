/**
 * ParserUtil and TagCommandParser: every parser trims its input and then validates it. The
 * tokenizer that splits a command line into prefixed arguments is not modelled; the parsers
 * receive the argument values directly.
 */
module Parsers {
  import opened Wrappers
  import opened Text
  import opened Indexes
  import opened Values
  import opened Transactions
  import opened Budgets

  /** The largest value Integer.parseInt accepts. */
  const MaxInt: nat := 2147483647

  /** The failure messages of parsing, by the constant that carries them. */
  datatype ParseError =
    | InvalidIndex
    | DateConstraints
    | ValueConstraints
    | TagConstraints
    | NotTagged
    | InvalidTagCommandFormat(cause: Option<ParseError>)

  /** A non-zero unsigned integer: ASCII digits whose value lies in 1 .. MaxInt. */
  predicate IsNonZeroUnsignedInteger(s: string) {
    |s| > 0 && AllDigits(s) && 1 <= DigitsValue(s) <= MaxInt
  }

  /** parseIndex: the trimmed string read as a one-based index. */
  function ParseIndex(oneBasedIndex: string): (r: Result<Index, ParseError>)
    ensures r.Success? <==> IsNonZeroUnsignedInteger(Trim(oneBasedIndex))
    ensures r.Failure? ==> r.error == InvalidIndex
    ensures r.Success? ==> r.value.OneBased() == DigitsValue(Trim(oneBasedIndex))
  {
    var trimmedIndex := Trim(oneBasedIndex);
    if IsNonZeroUnsignedInteger(trimmedIndex) then Success(FromOneBased(DigitsValue(trimmedIndex)))
    else Failure(InvalidIndex)
  }

  /** Writing a one-based index in decimal and parsing it gives that index back. */
  lemma ParseIndexRoundTrip(n: nat)
    requires 1 <= n <= MaxInt
    ensures ParseIndex(NatToString(n)) == Success(Index(n - 1))
  {
    var s := NatToString(n);
    TrimUnpadded(s);
    NatToStringRoundTrip(n);
  }

  /** "1" is the first index; "0", "-1", "+1", "1.5" and a value past MaxInt are refused. */
  lemma ParseIndexExamples()
    ensures ParseIndex(" 1 ") == Success(Index(0))
    ensures ParseIndex("0") == Failure(InvalidIndex)
    ensures ParseIndex("-1") == Failure(InvalidIndex)
    ensures ParseIndex("+1") == Failure(InvalidIndex)
    ensures ParseIndex("1.5") == Failure(InvalidIndex)
    ensures ParseIndex("") == Failure(InvalidIndex)
  {
    assert Trim(" 1 ") == "1" by {
      TrimIgnoresPadding(" ", "1", " ");
      TrimUnpadded("1");
      assert " " + "1" + " " == " 1 ";
    }
    assert "1"[..0] == "";
    TrimUnpadded("0");
    assert "0"[..0] == "";
    TrimUnpadded("-1");
    TrimUnpadded("+1");
    TrimUnpadded("1.5");
  }

  /** A number past MaxInt is refused, as Integer.parseInt would refuse it. */
  lemma ParseIndexOverflow(n: nat)
    requires n > MaxInt
    ensures ParseIndex(NatToString(n)) == Failure(InvalidIndex)
  {
    TrimUnpadded(NatToString(n));
    NatToStringRoundTrip(n);
  }

  /** parseDescription never fails; it keeps the trimmed text. */
  function ParseDescription(description: string): (r: Description)
    ensures r.value == Trim(description)
  {
    Description(Trim(description))
  }

  /** parseRemark never fails; it keeps the trimmed text. */
  function ParseRemark(remark: string): (r: Remark)
    ensures r.value == Trim(remark)
  {
    Remark(Trim(remark))
  }

  /** Parsing the text a description or remark parser returned gives the same result again. */
  lemma TextParsersIdempotent(s: string)
    ensures ParseDescription(ParseDescription(s).value) == ParseDescription(s)
    ensures ParseRemark(ParseRemark(s).value) == ParseRemark(s)
  {
    TrimIdempotent(s);
  }

  /** parseDate: the trimmed text must be MM/yyyy with a month 01 to 12. */
  function ParseDate(monthYear: string): (r: Result<MonthYear, ParseError>)
    ensures r.Success? <==> IsValidPeriod(Trim(monthYear))
    ensures r.Failure? ==> r.error == DateConstraints
    ensures r.Success? ==> 1 <= r.value.month <= 12 && 0 <= r.value.year <= 9999
    ensures r.Success? ==> r.value == PeriodOf(Trim(monthYear))
  {
    var trimmedMonthYear := Trim(monthYear);
    if IsValidPeriod(trimmedMonthYear) then Success(PeriodOf(trimmedMonthYear)) else Failure(DateConstraints)
  }

  /** parseValue: the trimmed text must be a valid amount; the value is in the default currency. */
  function ParseValue(value: string): (r: Result<Value, ParseError>)
    ensures r.Success? <==> IsValidValue(Trim(value))
    ensures r.Failure? ==> r.error == ParseError.ValueConstraints
    ensures r.Success? ==> r.value.currency == DefaultCurrency && r.value.amount == AmountOf(Trim(value))
    ensures r.Success? ==> 0.0 < r.value.amount < 1000000000.0
  {
    var trimmedValue := Trim(value);
    match NewValue(trimmedValue)
    case Success(v) => Success(v)
    case Failure(_) => Failure(ParseError.ValueConstraints)
  }

  /** parseTag: the trimmed name must be a valid tag name; the name rule itself is a parameter. */
  function ParseTag(tag: string, isValidTagName: string -> bool): (r: Result<Tag, ParseError>)
    ensures r.Success? <==> isValidTagName(Trim(tag))
    ensures r.Failure? ==> r.error == TagConstraints
    ensures r.Success? ==> r.value.tagName == Trim(tag)
  {
    var trimmedTag := Trim(tag);
    if isValidTagName(trimmedTag) then Success(Tag(trimmedTag)) else Failure(TagConstraints)
  }

  /** Leading and trailing whitespace never changes what a parser returns. */
  lemma ParsersIgnorePadding(p: string, s: string, q: string, isValidTagName: string -> bool)
    requires AllTrimmable(p) && AllTrimmable(q)
    ensures ParseIndex(p + s + q) == ParseIndex(s)
    ensures ParseDescription(p + s + q) == ParseDescription(s)
    ensures ParseRemark(p + s + q) == ParseRemark(s)
    ensures ParseDate(p + s + q) == ParseDate(s)
    ensures ParseValue(p + s + q) == ParseValue(s)
    ensures ParseTag(p + s + q, isValidTagName) == ParseTag(s, isValidTagName)
  {
    TrimIgnoresPadding(p, s, q);
  }

  /** The tags named by a list of strings, each trimmed. */
  ghost function TrimmedTags(tags: seq<string>): set<Tag> {
    set s | s in tags :: Tag(Trim(s))
  }

  /** parseTags: every name must parse; the result is the set of parsed tags, duplicates collapsed. */
  method ParseTags(tags: seq<string>, isValidTagName: string -> bool) returns (r: Result<set<Tag>, ParseError>)
    ensures r.Success? <==> forall i :: 0 <= i < |tags| ==> isValidTagName(Trim(tags[i]))
    ensures r.Failure? ==> r.error == TagConstraints
    ensures r.Success? ==> r.value == TrimmedTags(tags)
  {
    var tagSet: set<Tag> := {};
    for i := 0 to |tags|
      invariant forall j :: 0 <= j < i ==> isValidTagName(Trim(tags[j]))
      invariant tagSet == TrimmedTags(tags[..i])
    {
      var parsed := ParseTag(tags[i], isValidTagName);
      if parsed.Failure? {
        return Failure(parsed.error);
      }
      assert tags[..i + 1] == tags[..i] + [tags[i]];
      tagSet := tagSet + {parsed.value};
    }
    assert tags[..|tags|] == tags;
    r := Success(tagSet);
  }

  /** The tags a tag command line names: the non-empty values, taken as written. */
  ghost function NonEmptyTags(tagValues: seq<string>): set<Tag> {
    set s | s in tagValues && s != "" :: Tag(s)
  }

  /** Reordering the tag values does not change the named tags. */
  lemma TagOrderIrrelevant(a: seq<string>, b: seq<string>)
    requires multiset(a) == multiset(b)
    ensures NonEmptyTags(a) == NonEmptyTags(b)
  {
    assert forall s :: s in a <==> s in multiset(a);
    assert forall s :: s in b <==> s in multiset(b);
  }

  /** A successfully parsed tag command: the index and the tags to add. */
  datatype TagArguments = TagArguments(index: Index, tagSet: set<Tag>)

  /**
   * TagCommandParser.parse, given the index value (absent when the prefix is missing) and the
   * tag values. The index is read first: a missing or empty one and an unparsable one are usage
   * errors. Empty tag values are skipped, an invalid name is refused, and at least one tag is needed.
   */
  method ParseTagCommand(indexValue: Option<string>, tagValues: seq<string>, isValidTagName: string -> bool)
    returns (r: Result<TagArguments, ParseError>)
    ensures var indexStr := if indexValue.Some? then indexValue.value else "";
            (indexStr == "" ==> r == Failure(InvalidTagCommandFormat(None))) &&
            (indexStr != "" && ParseIndex(indexStr).Failure? ==>
               r == Failure(InvalidTagCommandFormat(Some(InvalidIndex)))) &&
            (indexStr != "" && ParseIndex(indexStr).Success? ==>
               ((exists j :: 0 <= j < |tagValues| && tagValues[j] != "" && !isValidTagName(tagValues[j])) ==>
                  r == Failure(TagConstraints)) &&
               ((forall j :: 0 <= j < |tagValues| && tagValues[j] != "" ==> isValidTagName(tagValues[j])) ==>
                  (NonEmptyTags(tagValues) == {} ==> r == Failure(NotTagged)) &&
                  (NonEmptyTags(tagValues) != {} ==>
                     r == Success(TagArguments(ParseIndex(indexStr).value, NonEmptyTags(tagValues))))))
  {
    var indexStr := if indexValue.Some? then indexValue.value else "";
    if |indexStr| == 0 {
      return Failure(InvalidTagCommandFormat(None));
    }
    var index := ParseIndex(indexStr);
    if index.Failure? {
      return Failure(InvalidTagCommandFormat(Some(index.error)));
    }
    var tagSet: set<Tag> := {};
    for i := 0 to |tagValues|
      invariant forall j :: 0 <= j < i && tagValues[j] != "" ==> isValidTagName(tagValues[j])
      invariant tagSet == NonEmptyTags(tagValues[..i])
    {
      assert tagValues[..i + 1] == tagValues[..i] + [tagValues[i]];
      var tagName := tagValues[i];
      if tagName != "" {
        if !isValidTagName(tagName) {
          return Failure(TagConstraints);
        }
        tagSet := tagSet + {Tag(tagName)};
      }
    }
    assert tagValues[..|tagValues|] == tagValues;
    if tagSet == {} {
      return Failure(NotTagged);
    }
    r := Success(TagArguments(index.value, tagSet));
  }

  /** "tag i/1 t/Food t/Shopping" and "tag i/1 t/Shopping t/Food" give the same command. */
  method TagOrderExample(isValidTagName: string -> bool) returns (first: Result<TagArguments, ParseError>, second: Result<TagArguments, ParseError>)
    requires isValidTagName("Food") && isValidTagName("Shopping")
    ensures first == second
    ensures first == Success(TagArguments(Index(0), {Tag("Food"), Tag("Shopping")}))
  {
    FirstIndexText();
    FoodAndShopping();
    first := ParseTagCommand(Some("1"), ["Food", "Shopping"], isValidTagName);
    second := ParseTagCommand(Some("1"), ["Shopping", "Food"], isValidTagName);
  }

  /** "1" is the first index. */
  lemma FirstIndexText()
    ensures ParseIndex("1") == Success(Index(0))
  {
    ParseIndexRoundTrip(1);
    assert NatToString(1) == "1";
  }

  /** The tag values Food and Shopping, in either order, name the same two tags. */
  lemma FoodAndShopping()
    ensures NonEmptyTags(["Food", "Shopping"]) == {Tag("Food"), Tag("Shopping")}
    ensures NonEmptyTags(["Shopping", "Food"]) == {Tag("Food"), Tag("Shopping")}
  {
    TagOrderIrrelevant(["Food", "Shopping"], ["Shopping", "Food"]);
    assert NonEmptyTags(["Food", "Shopping"]) == {Tag("Food"), Tag("Shopping")};
  }

  /** "tag i/1 t/" has only a blank tag and "tag" has no index at all. */
  method BlankAndMissingExamples(isValidTagName: string -> bool) returns (blank: Result<TagArguments, ParseError>, bare: Result<TagArguments, ParseError>)
    ensures blank == Failure(NotTagged)
    ensures bare == Failure(InvalidTagCommandFormat(None))
  {
    FirstIndexText();
    blank := ParseTagCommand(Some("1"), [""], isValidTagName);
    assert NonEmptyTags([""]) == {};
    bare := ParseTagCommand(None, [], isValidTagName);
  }
}
