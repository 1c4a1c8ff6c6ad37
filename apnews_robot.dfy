/**
 * The scraping robot, over abstract result cards instead of a browser page:
 * parsing one card into a `News` record, and collecting the records of a
 * result page that fall inside the requested period while asking for the
 * image of each kept record that has one.
 */
module ApNews {
  import opened Wrappers
  import opened Models
  import opened SearchAdapter

  // ----- abstract page data -----

  /** What one element lookup on the page gives: the element's value, "no such element", or any other failure. */
  datatype Lookup<T> = Found(value: T) | NotFound | Failed

  /** The card's content block: title text, description text, and the post time read from the timestamp element. */
  datatype Content = Content(title: Lookup<string>, description: Lookup<string>, timestamp: Lookup<DateTime>)

  /** The card's media block: its image element's `src` attribute, which may be absent. */
  datatype Media = Media(image: Lookup<Option<string>>)

  /** One search-result card. */
  datatype Card = Card(content: Lookup<Content>, media: Lookup<Media>)

  /** The lookups of the parser, to say which one raised. */
  datatype Field = ContentBlock | Title | Description | PostTime | MediaBlock | ImageElement

  datatype RobotError =
    | ElementMissing(field: Field)   // a NoSuchElementException that is not caught
    | LookupFailed(field: Field)     // any other exception raised by a lookup
    | SearchParamsUnset              // `self.search_params` read before `execute_search`
    | DownloadFailed(download: Download)  // `download_image` raised

  /** One `download_image(url, filename)` call. */
  datatype Download = Download(url: string, fileName: string)

  const ImageNotFound: string := "Image Not Found"
  const ImageExtension: string := ".webp"
  const HomeUrl: string := "https://apnews.com/"

  // ----- parsing one card -----

  /** A lookup whose failure is not caught: any outcome other than Found raises. */
  function Require<T>(lookup: Lookup<T>, field: Field): (r: Result<T, RobotError>)
    ensures r.Ok? <==> lookup.Found?
    ensures lookup.NotFound? ==> r == Err(ElementMissing(field))
    ensures lookup.Failed? ==> r == Err(LookupFailed(field))
  {
    match lookup
    case Found(v) => Ok(v)
    case NotFound => Err(ElementMissing(field))
    case Failed => Err(LookupFailed(field))
  }

  /** The guarded image lookup: a missing media block or image element means no image. */
  function ImageLink(card: Card): (r: Result<Option<string>, RobotError>)
    ensures r.Ok? <==> !card.media.Failed? && !(card.media.Found? && card.media.value.image.Failed?)
    ensures r.Ok? ==> (r.value.Some? <==> card.media.Found? && card.media.value.image.Found? && card.media.value.image.value.Some?)
    ensures r.Ok? && r.value.Some? ==> r.value == card.media.value.image.value
  {
    match card.media
    case NotFound => Ok(None)
    case Failed => Err(LookupFailed(MediaBlock))
    case Found(media) =>
      match media.image
      case NotFound => Ok(None)
      case Failed => Err(LookupFailed(ImageElement))
      case Found(src) => Ok(src)
  }

  /** The image file name: the record's code plus the extension when there is an image. */
  function FileNameFor(dt: DateTime, title: string, link: Option<string>): (r: string)
    ensures link.Some? ==> r == CodeOf(dt, title) + ".webp" && |r| == 20 + Min(11, |title|)
    ensures link.None? ==> r == "Image Not Found"
  {
    if link.Some? then CodeOf(dt, title) + ImageExtension else ImageNotFound
  }

  /** What `apnews_element_parser` produces for a card, or the exception it raises. */
  function Parse(card: Card): (r: Result<Record, RobotError>)
    ensures r.Ok? ==> r.value.title.Some? && r.value.description.Some? && r.value.postDatetime.Some? && r.value.imgFileName.Some?
  {
    var content :- Require(card.content, ContentBlock);
    var title :- Require(content.title, Title);
    var description :- Require(content.description, Description);
    var dt :- Require(content.timestamp, PostTime);
    var link :- ImageLink(card);
    Ok(Record(Some(title), Some(description), Some(dt), Some(FileNameFor(dt, title, link)), link))
  }

  /**
   * A parsed record holds the card's own values: the title and description
   * texts, the post time read from the timestamp element, and, when the media
   * block and image element are both found, the image's `src` attribute.
   */
  lemma ParseFields(card: Card)
    requires Parse(card).Ok?
    ensures card.content.Found? && card.content.value.title.Found?
    ensures card.content.value.description.Found? && card.content.value.timestamp.Found?
    ensures var rec := Parse(card).value;
      && rec.title == Some(card.content.value.title.value)
      && rec.description == Some(card.content.value.description.value)
      && rec.postDatetime == Some(card.content.value.timestamp.value)
      && ImageLink(card).Ok? && rec.imgLink == ImageLink(card).value
      && (card.media.Found? && card.media.value.image.Found? ==> rec.imgLink == card.media.value.image.value)
  {
  }

  /** A card parses exactly when its required elements are all found and neither image lookup fails otherwise than by absence. */
  lemma ParseSucceedsIff(card: Card)
    ensures Parse(card).Ok? <==>
      && card.content.Found?
      && card.content.value.title.Found?
      && card.content.value.description.Found?
      && card.content.value.timestamp.Found?
      && !card.media.Failed?
      && (card.media.Found? ==> !card.media.value.image.Failed?)
  {
  }

  /** A missing title, description or timestamp element is not caught: the card's parse raises. */
  lemma MissingRequiredElementAborts(card: Card)
    requires card.content.Found?
    ensures card.content.value.title.NotFound? ==> Parse(card) == Err(ElementMissing(Title))
    ensures card.content.value.title.Found? && card.content.value.description.NotFound? ==>
      Parse(card) == Err(ElementMissing(Description))
    ensures (card.content.value.title.Found? && card.content.value.description.Found?
             && card.content.value.timestamp.NotFound?) ==> Parse(card) == Err(ElementMissing(PostTime))
  {
  }

  /** A missing media block or image element leaves the record without an image, and parsing completes. */
  lemma MissingImageTolerated(card: Card)
    requires card.content.Found?
    requires card.content.value.title.Found? && card.content.value.description.Found?
    requires card.content.value.timestamp.Found?
    requires card.media.NotFound? || (card.media.Found? && card.media.value.image.NotFound?)
    ensures Parse(card).Ok?
    ensures Parse(card).value.imgLink.None?
    ensures Parse(card).value.imgFileName == Some(ImageNotFound)
  {
  }

  /**
   * The image file name of a parsed record: the record's code followed by
   * `.webp` when it has an image link (so 20 + min(11, |title|) characters
   * long), and "Image Not Found" otherwise.
   */
  lemma ParsedImageFileName(card: Card)
    requires Parse(card).Ok?
    ensures var rec := Parse(card).value;
      && (rec.imgLink.Some? ==>
            && rec.imgFileName.value == CodeOf(rec.postDatetime.value, rec.title.value) + ".webp"
            && |rec.imgFileName.value| == 20 + Min(11, |rec.title.value|))
      && (rec.imgLink.None? ==> rec.imgFileName.value == "Image Not Found")
  {
  }

  // ----- collecting the results of a page -----

  /** `search_params.get('months', 1)`. */
  function MonthsArg(params: map<string, ParamValue>): (v: ParamValue)
    ensures "months" in params ==> v == params["months"]
    ensures "months" !in params ==> v == Number(1)
  {
    if "months" in params then params["months"] else Number(1)
  }

  /**
   * The calls `get_results` makes into code outside this model: `get_period`,
   * `is_date_within_period`, and whether a `download_image` call returns
   * normally (false: it raises).
   */
  datatype Collaborators<!P> = Collaborators(
    getPeriod: ParamValue -> P,
    within: (DateTime, P) -> bool,
    downloadOk: Download -> bool)

  /** The observable state of `get_results` after some cards: kept records, downloads asked for, and the exception if one was raised. */
  datatype RunState = RunState(kept: seq<Record>, downloads: seq<Download>, failure: Option<RobotError>)

  /**
   * The download asked for when `rec` is kept: one when it has an image link.
   * The file name test never changes the outcome for a parsed record, since
   * parsing always sets the file name (`ParsedDownloads`).
   */
  function DownloadsOf(rec: Record): seq<Download>
  {
    if rec.imgLink.Some? && rec.imgFileName.Some? then [Download(rec.imgLink.value, rec.imgFileName.value)] else []
  }

  /** A parsed record asks for a download exactly when it has an image link (`have_image()`), with its link and file name. */
  lemma ParsedDownloads(card: Card)
    requires Parse(card).Ok?
    ensures var rec := Parse(card).value;
      && (DownloadsOf(rec) != [] <==> rec.imgLink.Some?)
      && (rec.imgLink.Some? ==> DownloadsOf(rec) == [Download(rec.imgLink.value, rec.imgFileName.value)])
  {
  }

  predicate DownloadsSucceed<P>(downloads: seq<Download>, env: Collaborators<P>)
  {
    forall k :: 0 <= k < |downloads| ==> env.downloadOk(downloads[k])
  }

  /** A run of downloads succeeds exactly when both of its parts do. */
  lemma DownloadsSucceedConcat<P>(a: seq<Download>, b: seq<Download>, env: Collaborators<P>)
    ensures DownloadsSucceed(a + b, env) <==> DownloadsSucceed(a, env) && DownloadsSucceed(b, env)
  {
    assert forall k :: 0 <= k < |a| ==> (a + b)[k] == a[k];
    assert forall k :: 0 <= k < |b| ==> (a + b)[|a| + k] == b[k];
  }

  /** The exception raised by the download of a kept record, if any. */
  function DownloadFailure<P>(rec: Record, env: Collaborators<P>): (r: Option<RobotError>)
    ensures r.None? <==> DownloadsSucceed(DownloadsOf(rec), env)
  {
    if DownloadsOf(rec) != [] && !env.downloadOk(DownloadsOf(rec)[0]) then Some(DownloadFailed(DownloadsOf(rec)[0])) else None
  }

  /** One pass of the loop body, given the card's parse: compute the period, keep, and download. */
  function Step<P>(s: RunState, parsed: Result<Record, RobotError>, params: Option<map<string, ParamValue>>,
                   env: Collaborators<P>): (r: RunState)
    requires s.failure.None?
    requires parsed.Ok? ==> parsed.value.postDatetime.Some?
    ensures parsed.Err? ==> r.failure == Some(parsed.error)
    ensures parsed.Ok? && params.None? ==> r.failure == Some(SearchParamsUnset)
    ensures s.kept <= r.kept && |r.kept| <= |s.kept| + 1
    ensures r.kept == s.kept ==> r.downloads == s.downloads && (r.failure.None? <==> parsed.Ok? && params.Some?)
    ensures r.kept != s.kept ==> parsed.Ok? && r.kept == s.kept + [parsed.value] && r.downloads == s.downloads + DownloadsOf(parsed.value)
    ensures r.kept != s.kept ==> (r.failure.None? <==> DownloadsSucceed(DownloadsOf(parsed.value), env))
    ensures parsed.Ok? && params.Some? ==>
      (r.kept != s.kept <==> env.within(parsed.value.postDatetime.value, env.getPeriod(MonthsArg(params.value))))
  {
    match parsed
    case Err(e) => s.(failure := Some(e))
    case Ok(rec) =>
      if params.None? then s.(failure := Some(SearchParamsUnset))
      else if env.within(rec.postDatetime.value, env.getPeriod(MonthsArg(params.value))) then
        RunState(s.kept + [rec], s.downloads + DownloadsOf(rec), DownloadFailure(rec, env))
      else s
  }

  /** The loop of `get_results` over `cards`, stopping at the first exception. */
  function Run<P>(cards: seq<Card>, params: Option<map<string, ParamValue>>, env: Collaborators<P>): (r: RunState)
    ensures |r.kept| <= |cards|
    decreases |cards|
  {
    if cards == [] then RunState([], [], None)
    else
      var prev := Run(cards[..|cards| - 1], params, env);
      if prev.failure.Some? then prev else Step(prev, Parse(cards[|cards| - 1]), params, env)
  }

  // ----- reference definitions for the run -----

  predicate AllParse(cards: seq<Card>)
  {
    forall i :: 0 <= i < |cards| ==> Parse(cards[i]).Ok?
  }

  /** The positions of the cards whose record lies in `period`, in increasing order. */
  function KeptIndices<P>(cards: seq<Card>, period: P, within: (DateTime, P) -> bool): seq<nat>
    requires AllParse(cards)
    decreases |cards|
  {
    if cards == [] then []
    else
      var n := |cards| - 1;
      var rest := KeptIndices(cards[..n], period, within);
      if within(Parse(cards[n]).value.postDatetime.value, period) then rest + [n] else rest
  }

  /** The kept positions are positions of `cards`, in strictly increasing order. */
  lemma {:induction false} KeptIndicesInOrder<P>(cards: seq<Card>, period: P, within: (DateTime, P) -> bool)
    requires AllParse(cards)
    ensures var idx := KeptIndices(cards, period, within);
      && |idx| <= |cards|
      && (forall k :: 0 <= k < |idx| ==> idx[k] < |cards|)
      && (forall k, l :: 0 <= k < l < |idx| ==> idx[k] < idx[l])
    decreases |cards|
  {
    if cards != [] {
      AllParseLast(cards);
      KeptIndicesInOrder(cards[..|cards| - 1], period, within);
    }
  }

  /** Every kept position holds a card whose record lies in the period. */
  lemma {:induction false} KeptIndicesWithin<P>(cards: seq<Card>, period: P, within: (DateTime, P) -> bool)
    requires AllParse(cards)
    ensures var idx := KeptIndices(cards, period, within);
      forall k :: 0 <= k < |idx| ==> idx[k] < |cards| && within(Parse(cards[idx[k]]).value.postDatetime.value, period)
    decreases |cards|
  {
    if cards != [] {
      var n := |cards| - 1;
      var init := cards[..n];
      AllParseLast(cards);
      KeptIndicesWithin(init, period, within);
      KeptIndicesInOrder(init, period, within);
      var restIdx := KeptIndices(init, period, within);
      forall k | 0 <= k < |restIdx| ensures init[restIdx[k]] == cards[restIdx[k]] { }
    }
  }

  /** Every position whose record lies in the period is kept. */
  lemma {:induction false} KeptIndicesComplete<P>(cards: seq<Card>, period: P, within: (DateTime, P) -> bool)
    requires AllParse(cards)
    ensures var idx := KeptIndices(cards, period, within);
      forall i :: 0 <= i < |cards| && within(Parse(cards[i]).value.postDatetime.value, period) ==> i in idx
    decreases |cards|
  {
    if cards != [] {
      var n := |cards| - 1;
      var init := cards[..n];
      AllParseLast(cards);
      KeptIndicesComplete(init, period, within);
      forall i | 0 <= i < n ensures init[i] == cards[i] { }
    }
  }

  /** `KeptIndices` lists every position whose record lies in the period, and no other, each once, in increasing order. */
  lemma KeptIndicesExact<P>(cards: seq<Card>, period: P, within: (DateTime, P) -> bool)
    requires AllParse(cards)
    ensures var idx := KeptIndices(cards, period, within);
      && |idx| <= |cards|
      && (forall k :: 0 <= k < |idx| ==> idx[k] < |cards| && within(Parse(cards[idx[k]]).value.postDatetime.value, period))
      && (forall k, l :: 0 <= k < l < |idx| ==> idx[k] < idx[l])
      && (forall i :: 0 <= i < |cards| && within(Parse(cards[i]).value.postDatetime.value, period) ==> i in idx)
  {
    KeptIndicesInOrder(cards, period, within);
    KeptIndicesWithin(cards, period, within);
    KeptIndicesComplete(cards, period, within);
  }

  /** The records of the parsed cards whose post time lies in `period`, in card order. */
  function KeepWithin<P>(cards: seq<Card>, period: P, within: (DateTime, P) -> bool): (r: seq<Record>)
    requires AllParse(cards)
    ensures |r| <= |cards|
    decreases |cards|
  {
    if cards == [] then []
    else
      var n := |cards| - 1;
      var rest := KeepWithin(cards[..n], period, within);
      var rec := Parse(cards[n]).value;
      if within(rec.postDatetime.value, period) then rest + [rec] else rest
  }

  /** The k-th record kept is the record of the card at the k-th kept position. */
  lemma {:induction false} KeepWithinLink<P>(cards: seq<Card>, period: P, within: (DateTime, P) -> bool)
    requires AllParse(cards)
    ensures var r := KeepWithin(cards, period, within);
      var idx := KeptIndices(cards, period, within);
      && |r| == |idx|
      && (forall k :: 0 <= k < |r| ==> idx[k] < |cards| && r[k] == Parse(cards[idx[k]]).value)
    decreases |cards|
  {
    if cards != [] {
      var n := |cards| - 1;
      var init := cards[..n];
      AllParseLast(cards);
      KeepWithinLink(init, period, within);
      var rest := KeepWithin(init, period, within);
      var restIdx := KeptIndices(init, period, within);
      forall k | 0 <= k < |rest| ensures rest[k] == Parse(cards[restIdx[k]]).value {
        assert init[restIdx[k]] == cards[restIdx[k]];
      }
    }
  }

  /**
   * The filter is exact and keeps card order: its records are those of the
   * cards at the kept positions, which increase; every record it keeps lies
   * in the period; every parsed record that lies in the period is kept.
   */
  lemma KeepWithinExact<P>(cards: seq<Card>, period: P, within: (DateTime, P) -> bool)
    requires AllParse(cards)
    ensures var r := KeepWithin(cards, period, within);
      var idx := KeptIndices(cards, period, within);
      && |r| == |idx|
      && (forall k :: 0 <= k < |r| ==> idx[k] < |cards| && r[k] == Parse(cards[idx[k]]).value)
      && (forall k, l :: 0 <= k < l < |idx| ==> idx[k] < idx[l])
      && (forall k :: 0 <= k < |r| ==> r[k].postDatetime.Some? && within(r[k].postDatetime.value, period))
      && (forall i :: 0 <= i < |cards| && within(Parse(cards[i]).value.postDatetime.value, period) ==> Parse(cards[i]).value in r)
  {
    var r := KeepWithin(cards, period, within);
    var idx := KeptIndices(cards, period, within);
    KeepWithinLink(cards, period, within);
    KeptIndicesExact(cards, period, within);
    forall i | 0 <= i < |cards| && within(Parse(cards[i]).value.postDatetime.value, period)
      ensures Parse(cards[i]).value in r
    {
      var k :| 0 <= k < |idx| && idx[k] == i;
      assert r[k] == Parse(cards[i]).value;
    }
  }

  /** Filtering one more card appends its record exactly when it lies in the period. */
  lemma KeepWithinLast<P>(cards: seq<Card>, period: P, within: (DateTime, P) -> bool)
    requires AllParse(cards) && cards != []
    ensures AllParse(cards[..|cards| - 1])
    ensures var rec := Parse(cards[|cards| - 1]).value;
      KeepWithin(cards, period, within)
      == KeepWithin(cards[..|cards| - 1], period, within) + (if within(rec.postDatetime.value, period) then [rec] else [])
  {
  }

  /** The downloads asked for when `recs` are kept, in order. */
  function DownloadsFor(recs: seq<Record>): seq<Download>
    decreases |recs|
  {
    if recs == [] then [] else DownloadsFor(recs[..|recs| - 1]) + DownloadsOf(recs[|recs| - 1])
  }

  lemma DownloadsForAppend(recs: seq<Record>, rec: Record)
    ensures DownloadsFor(recs + [rec]) == DownloadsFor(recs) + DownloadsOf(rec)
  {
  }

  /** Extending the processed prefix by one card is one more loop pass, unless the run has already raised. */
  lemma RunPrefixStep<P>(cards: seq<Card>, i: nat, params: Option<map<string, ParamValue>>, env: Collaborators<P>)
    requires i < |cards|
    ensures var prev := Run(cards[..i], params, env);
      Run(cards[..i + 1], params, env)
      == if prev.failure.Some? then prev else Step(prev, Parse(cards[i]), params, env)
  {
    assert cards[..i + 1][..i] == cards[..i];
  }

  /** Once the run has raised, later cards change nothing. */
  lemma {:induction false} RunFailurePersists<P>(cards: seq<Card>, n: nat, params: Option<map<string, ParamValue>>,
                                                 env: Collaborators<P>)
    requires n <= |cards|
    requires Run(cards[..n], params, env).failure.Some?
    ensures Run(cards, params, env) == Run(cards[..n], params, env)
    decreases |cards| - n
  {
    if n < |cards| {
      assert cards[..n + 1][..n] == cards[..n];
      RunFailurePersists(cards, n + 1, params, env);
    } else {
      assert cards[..n] == cards;
    }
  }

  /** Every download requested names a kept record with an image, one per such record, in order, whether or not the run raised. */
  lemma {:induction false} RunDownloadsFollowKept<P>(cards: seq<Card>, params: Option<map<string, ParamValue>>,
                                                      env: Collaborators<P>)
    ensures var run := Run(cards, params, env);
      run.downloads == DownloadsFor(run.kept)
    decreases |cards|
  {
    if cards != [] {
      var prev := Run(cards[..|cards| - 1], params, env);
      RunDownloadsFollowKept(cards[..|cards| - 1], params, env);
      if prev.failure.None? && Parse(cards[|cards| - 1]).Ok? {
        DownloadsForAppend(prev.kept, Parse(cards[|cards| - 1]).value);
      }
    }
  }

  /**
   * Whenever the run returns normally, every card parsed and the run kept
   * exactly the records inside the period, in card order, with their downloads.
   */
  lemma {:induction false} RunKeepsFiltered<P>(cards: seq<Card>, params: map<string, ParamValue>, env: Collaborators<P>)
    requires Run(cards, Some(params), env).failure.None?
    ensures AllParse(cards)
    ensures var kept := KeepWithin(cards, env.getPeriod(MonthsArg(params)), env.within);
      Run(cards, Some(params), env) == RunState(kept, DownloadsFor(kept), None)
    decreases |cards|
  {
    if cards != [] {
      var n := |cards| - 1;
      var init := cards[..n];
      var prev := Run(init, Some(params), env);
      assert prev.failure.None?;
      RunKeepsFiltered(init, params, env);
      assert Parse(cards[n]).Ok?;
      AllParseLast(cards);
      var rec := Parse(cards[n]).value;
      KeepWithinLast(cards, env.getPeriod(MonthsArg(params)), env.within);
      DownloadsForAppend(KeepWithin(init, env.getPeriod(MonthsArg(params)), env.within), rec);
    }
  }

  /**
   * The run raises exactly when a card fails to parse, when there is a card
   * but the search parameters were never stored, or when the download of a
   * kept record raises.
   */
  lemma {:induction false} RunFailsIff<P>(cards: seq<Card>, params: Option<map<string, ParamValue>>, env: Collaborators<P>)
    ensures Run(cards, params, env).failure.None? <==>
      && AllParse(cards)
      && (cards == [] ||
          (params.Some? && DownloadsSucceed(DownloadsFor(KeepWithin(cards, env.getPeriod(MonthsArg(params.value)), env.within)), env)))
    decreases |cards|
  {
    if cards != [] {
      var n := |cards| - 1;
      var init := cards[..n];
      var prev := Run(init, params, env);
      RunFailsIff(init, params, env);
      AllParseLast(cards);
      if AllParse(cards) && params.Some? {
        var period := env.getPeriod(MonthsArg(params.value));
        DownloadsSucceedLast(cards, period, env);
        if prev.failure.None? {
          RunKeepsFiltered(init, params.value, env);
        }
      }
    }
  }

  /** Every card parses exactly when every card but the last does and the last does too. */
  lemma AllParseLast(cards: seq<Card>)
    requires cards != []
    ensures AllParse(cards) <==> AllParse(cards[..|cards| - 1]) && Parse(cards[|cards| - 1]).Ok?
  {
    forall i | 0 <= i < |cards| - 1 ensures cards[..|cards| - 1][i] == cards[i] { }
  }

  /** The downloads of the filtered records all succeed exactly when those of the earlier cards and of the last card do. */
  lemma DownloadsSucceedLast<P>(cards: seq<Card>, period: P, env: Collaborators<P>)
    requires AllParse(cards) && cards != []
    ensures AllParse(cards[..|cards| - 1])
    ensures var rec := Parse(cards[|cards| - 1]).value;
      DownloadsSucceed(DownloadsFor(KeepWithin(cards, period, env.within)), env) <==>
      && DownloadsSucceed(DownloadsFor(KeepWithin(cards[..|cards| - 1], period, env.within)), env)
      && (env.within(rec.postDatetime.value, period) ==> DownloadsSucceed(DownloadsOf(rec), env))
  {
    var init := cards[..|cards| - 1];
    var rec := Parse(cards[|cards| - 1]).value;
    KeepWithinLast(cards, period, env.within);
    var kept := KeepWithin(init, period, env.within);
    if env.within(rec.postDatetime.value, period) {
      DownloadsForAppend(kept, rec);
      DownloadsSucceedConcat(DownloadsFor(kept), DownloadsOf(rec), env);
    }
  }

  /** A missing `months` entry gives the same run as an explicit `months` of 1. */
  lemma {:induction false} MissingMonthsMeansOne<P>(cards: seq<Card>, params: map<string, ParamValue>, env: Collaborators<P>)
    requires "months" !in params
    ensures Run(cards, Some(params), env) == Run(cards, Some(params["months" := Number(1)]), env)
    decreases |cards|
  {
    if cards != [] {
      MissingMonthsMeansOne(cards[..|cards| - 1], params, env);
    }
  }

  // ----- the robot -----

  class Robot {
    const url: string
    var searchParams: Option<map<string, ParamValue>>

    /** A robot pointed at the home page; no search has been stored yet. */
    constructor ()
      ensures url == HomeUrl && searchParams.None?
    {
      url := HomeUrl;
      searchParams := None;
    }

    /** `execute_search`: stores the parameters first (the browser steps that follow are not modelled). */
    method ExecuteSearch(params: map<string, ParamValue>)
      modifies this
      ensures searchParams == Some(params)
    {
      searchParams := Some(params);
    }

    /** `apnews_element_parser`: builds a new `News` field by field, as `Parse` describes. */
    method ParseElement(card: Card) returns (r: Result<News, RobotError>)
      ensures r.Ok? <==> Parse(card).Ok?
      ensures r.Err? ==> r.error == Parse(card).error
      ensures r.Ok? ==> fresh(r.value) && r.value.Snapshot() == Parse(card).value
    {
      if !card.content.Found? {
        return Err(Require(card.content, ContentBlock).error);
      }
      var content := card.content.value;
      var item := new News();

      if !content.title.Found? {
        return Err(Require(content.title, Title).error);
      }
      item.title := Some(content.title.value);

      if !content.description.Found? {
        return Err(Require(content.description, Description).error);
      }
      item.description := Some(content.description.value);

      if !content.timestamp.Found? {
        return Err(Require(content.timestamp, PostTime).error);
      }
      item.postDatetime := Some(content.timestamp.value);

      var link: Option<string>;
      match card.media {
        case NotFound =>
          link := None;
        case Failed =>
          return Err(LookupFailed(MediaBlock));
        case Found(media) =>
          match media.image {
            case NotFound =>
              link := None;
            case Failed =>
              return Err(LookupFailed(ImageElement));
            case Found(src) =>
              link := src;
          }
      }
      assert ImageLink(card) == Ok(link);
      item.imgLink := link;

      if item.HaveImage() {
        var code := item.Code();
        item.imgFileName := Some(code.value + ImageExtension);
      } else {
        item.imgFileName := Some(ImageNotFound);
      }
      assert Parse(card) == Ok(item.Snapshot());
      return Ok(item);
    }

    /**
     * `get_results`: parses the cards in order, keeps those inside the
     * period, and downloads the image of each kept record that has one. The
     * downloads asked for before an exception are reported too.
     */
    method GetResults<P>(cards: seq<Card>, env: Collaborators<P>)
      returns (r: Result<seq<News>, RobotError>, downloads: seq<Download>)
      ensures var run := Run(cards, searchParams, env);
        && downloads == run.downloads
        && (r.Ok? <==> run.failure.None?)
        && (r.Err? ==> r.error == run.failure.value)
        && (r.Ok? ==> |r.value| == |run.kept| && forall k :: 0 <= k < |r.value| ==> r.value[k].Snapshot() == run.kept[k])
    {
      var results: seq<News> := [];
      downloads := [];
      ghost var kept: seq<Record> := [];
      var i := 0;
      while i < |cards|
        invariant 0 <= i <= |cards|
        invariant Run(cards[..i], searchParams, env) == RunState(kept, downloads, None)
        invariant |results| == |kept| && forall k :: 0 <= k < |results| ==> results[k].Snapshot() == kept[k]
      {
        RunPrefixStep(cards, i, searchParams, env);
        var parsed := ParseElement(cards[i]);
        if parsed.Err? {
          RunFailurePersists(cards, i + 1, searchParams, env);
          return Err(parsed.error), downloads;
        }
        var item := parsed.value;
        if searchParams.None? {
          RunFailurePersists(cards, i + 1, searchParams, env);
          return Err(SearchParamsUnset), downloads;
        }
        var period := env.getPeriod(MonthsArg(searchParams.value));
        if env.within(item.postDatetime.value, period) {
          results := results + [item];
          kept := kept + [item.Snapshot()];
          if item.HaveImage() {
            var download := Download(item.imgLink.value, item.imgFileName.value);
            downloads := downloads + [download];
            if !env.downloadOk(download) {
              RunFailurePersists(cards, i + 1, searchParams, env);
              return Err(DownloadFailed(download)), downloads;
            }
          }
        }
        i := i + 1;
      }
      assert cards[..i] == cards;
      return Ok(results), downloads;
    }
  }
}
