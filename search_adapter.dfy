/**
 * The search-parameter adapter: it captures the optional `phrase`, `months`
 * and `sort_by` entries of a work-item payload and exposes them through
 * accessors that always yield a usable value.
 */
module SearchAdapter {
  import opened Wrappers

  /** The raw payload; each entry is `None` when the key is absent or null. */
  datatype Payload = Payload(phrase: Option<string>, months: Option<int>, sortBy: Option<string>)

  const EmptyPayload: Payload := Payload(None, None, None)

  const DefaultMonth: int := 1
  const DefaultSortBy: string := "Relevance"
  const DefaultPhrase: string := "Olympic Games"

  /** The sort orders the search page offers. */
  const SortOrders: seq<string> := ["Relevance", "Newest", "Oldest"]

  /** A value of the dictionary that `GetDict` builds. */
  datatype ParamValue = Text(text: string) | Number(number: int)

  /** The adapter's stored raw values; they are set once, at construction. */
  datatype SearchParams = SearchParams(rawPhrase: Option<string>, rawMonths: Option<int>, rawSortBy: Option<string>)

  /** The constructor: a `None` payload is read as an empty mapping. */
  function FromPayload(payload: Option<Payload>): (p: SearchParams)
    ensures payload.None? ==> p.rawPhrase.None? && p.rawMonths.None? && p.rawSortBy.None?
    ensures payload.Some? ==>
      p.rawPhrase == payload.value.phrase && p.rawMonths == payload.value.months && p.rawSortBy == payload.value.sortBy
  {
    var source := if payload.Some? then payload.value else EmptyPayload;
    SearchParams(source.phrase, source.months, source.sortBy)
  }

  // ----- Python's str.strip() -----

  /** The characters for which Python's `str.isspace` holds. */
  predicate IsWhitespace(c: char)
  {
    ('\U{9}' <= c <= '\U{D}') || ('\U{1C}' <= c <= '\U{20}') || c == '\U{85}' || c == '\U{A0}'
    || c == '\U{1680}' || ('\U{2000}' <= c <= '\U{200A}') || c == '\U{2028}' || c == '\U{2029}'
    || c == '\U{202F}' || c == '\U{205F}' || c == '\U{3000}'
  }

  /** Every character of `s` is whitespace (the empty string included). */
  predicate Blank(s: string)
  {
    forall i :: 0 <= i < |s| ==> IsWhitespace(s[i])
  }

  /** Drops the leading run of whitespace. */
  function TrimStart(s: string): (r: string)
    ensures |r| <= |s| && r == s[|s| - |r|..]
    ensures forall k :: 0 <= k < |s| - |r| ==> IsWhitespace(s[k])
    ensures r == [] || !IsWhitespace(r[0])
  {
    if s != [] && IsWhitespace(s[0]) then TrimStart(s[1..]) else s
  }

  /** Drops the trailing run of whitespace. */
  function TrimEnd(s: string): (r: string)
    ensures |r| <= |s| && r == s[..|r|]
    ensures forall k :: |r| <= k < |s| ==> IsWhitespace(s[k])
    ensures r == [] || !IsWhitespace(r[|r| - 1])
  {
    if s != [] && IsWhitespace(s[|s| - 1]) then TrimEnd(s[..|s| - 1]) else s
  }

  /** `s.strip()`: empty exactly when `s` consists of whitespace only. */
  function Strip(s: string): (r: string)
    ensures r == [] <==> Blank(s)
    ensures r == [] || (!IsWhitespace(r[0]) && !IsWhitespace(r[|r| - 1]))
  {
    var t := TrimStart(s);
    assert t != [] ==> t[0] == s[|s| - |t|];
    TrimEnd(t)
  }

  // ----- the accessors -----

  /** The `months` property: the stored value when it is at least 1, else 1. */
  function Months(p: SearchParams): (m: int)
    ensures m >= 1
    ensures p.rawMonths.Some? && p.rawMonths.value >= 1 ==> m == p.rawMonths.value
    ensures p.rawMonths.None? || p.rawMonths.value < 1 ==> m == DefaultMonth
  {
    var notPositive := p.rawMonths.None? || p.rawMonths.value < 1;
    if notPositive then DefaultMonth else p.rawMonths.value
  }

  /** The `sort_by` property: one of the three sort orders, the stored one if it is valid. */
  function SortBy(p: SearchParams): (s: string)
    ensures s in SortOrders
    ensures p.rawSortBy.Some? && p.rawSortBy.value in SortOrders ==> s == p.rawSortBy.value
    ensures (p.rawSortBy.None? || p.rawSortBy.value !in SortOrders) ==> s == DefaultSortBy
  {
    var isValidSort := p.rawSortBy.Some? && p.rawSortBy.value in SortOrders;
    if isValidSort then p.rawSortBy.value else "Relevance"
  }

  /** The `phrase` property: the stored, untrimmed phrase unless it is missing or blank. */
  function Phrase(p: SearchParams): (r: string)
    ensures (p.rawPhrase.None? || Blank(p.rawPhrase.value)) ==> r == DefaultPhrase
    ensures p.rawPhrase.Some? && !Blank(p.rawPhrase.value) ==> r == p.rawPhrase.value
    ensures Strip(r) != []
  {
    var isEmptyText := p.rawPhrase.None? || Strip(p.rawPhrase.value) == [];
    assert !IsWhitespace(DefaultPhrase[0]);
    if !isEmptyText then p.rawPhrase.value else DefaultPhrase
  }

  /** The dictionary `{"phrase": phrase, "months": months, "sort_by": sortBy}`. */
  function ParamsDict(phrase: ParamValue, months: ParamValue, sortBy: ParamValue): (d: map<string, ParamValue>)
    ensures d.Keys == {"phrase", "months", "sort_by"}
    ensures d["phrase"] == phrase && d["months"] == months && d["sort_by"] == sortBy
  {
    map["phrase" := phrase, "months" := months, "sort_by" := sortBy]
  }

  /** `get_dict`: the three accessors under their payload key names. */
  function GetDict(p: SearchParams): (d: map<string, ParamValue>)
    ensures d.Keys == {"phrase", "months", "sort_by"}
    ensures d["phrase"] == Text(Phrase(p))
    ensures d["months"] == Number(Months(p))
    ensures d["sort_by"] == Text(SortBy(p))
  {
    ParamsDict(Text(Phrase(p)), Number(Months(p)), Text(SortBy(p)))
  }

  // ----- properties -----

  /** Whatever the payload, the dictionary holds a usable search. */
  lemma GetDictAlwaysValid(payload: Option<Payload>)
    ensures var d := GetDict(FromPayload(payload));
      d["months"].Number? && d["months"].number >= 1
      && d["sort_by"].Text? && d["sort_by"].text in SortOrders
      && d["phrase"].Text? && Strip(d["phrase"].text) != []
  {
  }

  /** A `None` payload behaves exactly like an empty mapping, and both give the defaults. */
  lemma NonePayloadIsEmpty()
    ensures FromPayload(None) == FromPayload(Some(EmptyPayload))
    ensures Months(FromPayload(None)) == DefaultMonth
    ensures SortBy(FromPayload(None)) == DefaultSortBy
    ensures Phrase(FromPayload(None)) == DefaultPhrase
  {
  }

  /** The constructor keeps the payload's entries as they are. */
  lemma FromPayloadKeepsEntries(payload: Payload)
    ensures Months(FromPayload(Some(payload))) == (if payload.months.Some? && payload.months.value >= 1 then payload.months.value else 1)
    ensures SortBy(FromPayload(Some(payload))) == (if payload.sortBy.Some? && payload.sortBy.value in SortOrders then payload.sortBy.value else "Relevance")
    ensures Phrase(FromPayload(Some(payload))) == (if payload.phrase.Some? && !Blank(payload.phrase.value) then payload.phrase.value else "Olympic Games")
  {
  }
}
