/**
 * The content-API client: it builds request URLs, turns a non-ok response into
 * an error, and normalises the verse and word records of the response into the
 * shape the rest of the application reads.
 *
 * `fetch` is a parameter (a function from URL to response), and so are the base
 * URL and `encodeURIComponent`. A response body is the value `res.json()` resolves to.
 */
module Api {
  import opened Wrappers
  import opened Json
  import opened Strings

  /** What `fetch` resolves to: the HTTP status and the parsed body. */
  datatype Response = Response(status: nat, body: Value) {
    /** `res.ok`: the status is in the range 200 to 299 (the Fetch Standard's "ok status"). */
    predicate Ok() {
      200 <= status <= 299
    }
  }

  datatype ApiError =
      /** `new Error(`Failed to ${what}: ${res.status}`)`, thrown on a non-ok response. */
    | FetchFailed(what: string, status: nat)
      /** A body that does not have the declared shape, where the client would throw a TypeError. */
    | Malformed

  datatype Result<+T> = Success(value: T) | Failure(error: ApiError)

  /** The text of the thrown error. */
  function Message(e: ApiError): (m: string)
    requires e.FetchFailed?
    ensures StartsWith(m, "Failed to " + e.what + ": ")
    ensures var digits := m[|"Failed to " + e.what + ": "|..];
      AllDigits(digits) && ParseDecimal(digits) == e.status
  {
    var prefix := "Failed to " + e.what + ": ";
    ParseDecimalOfDecimal(e.status);
    assert (prefix + Decimal(e.status))[|prefix|..] == Decimal(e.status);
    prefix + Decimal(e.status)
  }

  /** The message of a failed fetch carries its HTTP status: two statuses give two messages. */
  lemma MessageDeterminesStatus(what: string, a: nat, b: nat)
    requires Message(FetchFailed(what, a)) == Message(FetchFailed(what, b))
    ensures a == b
  {
  }

  // ---------------------------------------------------------------------------
  // Normalisation of verse and word records

  /**
   * One word: all its fields, then `uthmani` set to `text_uthmani ?? text`, then
   * the gloss `translation?.text` written under the key `wordLang`. The gloss is
   * written last, so when `wordLang` is "uthmani" it replaces the transcription;
   * when there is no translation the key is still written, holding `undefined`.
   */
  function NormalizeWord(w: map<string, Value>, wordLang: string): (r: map<string, Value>)
    ensures r.Keys == w.Keys + {"uthmani", wordLang}
    ensures r[wordLang] == Member(Get(w, "translation"), "text")
    ensures wordLang != "uthmani" && !Nullish(Get(w, "text_uthmani")) ==> r["uthmani"] == w["text_uthmani"]
    ensures wordLang != "uthmani" && Nullish(Get(w, "text_uthmani")) ==> r["uthmani"] == Get(w, "text")
    ensures forall k :: k in w && k != "uthmani" && k != wordLang ==> r[k] == w[k]
  {
    w["uthmani" := Coalesce(Get(w, "text_uthmani"), Get(w, "text"))]
     [wordLang := Member(Get(w, "translation"), "text")]
  }

  /** The `words` a verse may carry: absent, or an array of word records. */
  predicate WordsShaped(words: Value) {
    Nullish(words) || (words.Arr? && forall e :: e in words.elems ==> e.Obj?)
  }

  /** A verse record the normaliser accepts. */
  predicate VerseShaped(raw: Value) {
    raw.Obj? && WordsShaped(Member(raw, "words"))
  }

  /**
   * One verse: all its fields, with `words` replaced by the normalised words, or
   * by `undefined` when the record has none.
   */
  function NormalizeVerse(raw: Value, wordLang: string): (r: Result<Value>)
    ensures r.Success? <==> VerseShaped(raw)
    ensures r.Failure? ==> r.error == Malformed
    ensures r.Success? ==> r.value.Obj? && r.value.fields.Keys == raw.fields.Keys + {"words"}
    ensures r.Success? ==> forall k :: k in raw.fields && k != "words" ==> r.value.fields[k] == raw.fields[k]
    ensures r.Success? && Nullish(Member(raw, "words")) ==> r.value.fields["words"] == Undefined
    ensures r.Success? && Member(raw, "words").Arr? ==>
      var ws, out := Member(raw, "words").elems, r.value.fields["words"];
      && out.Arr? && |out.elems| == |ws|
      && forall i :: 0 <= i < |ws| ==> out.elems[i] == Obj(NormalizeWord(ws[i].fields, wordLang))
  {
    if !raw.Obj? then Failure(Malformed)
    else
      var words := Member(raw, "words");
      if Nullish(words) then Success(Obj(raw.fields["words" := Undefined]))
      else if WordsShaped(words) then
        var ws := words.elems;
        var normalized := seq(|ws|, i requires 0 <= i < |ws| => Obj(NormalizeWord(ws[i].fields, wordLang)));
        Success(Obj(raw.fields["words" := Arr(normalized)]))
      else Failure(Malformed)
  }

  /** `raws.map((v) => normalizeVerse(v, wordLang))`, which stops at the first verse that throws. */
  function NormalizeAll(raws: seq<Value>, wordLang: string): (r: Result<seq<Value>>)
    ensures r.Success? <==> forall i :: 0 <= i < |raws| ==> VerseShaped(raws[i])
    ensures r.Failure? ==> r.error == Malformed
    ensures r.Success? ==> |r.value| == |raws|
    ensures r.Success? ==> forall i :: 0 <= i < |raws| ==> r.value[i] == NormalizeVerse(raws[i], wordLang).value
  {
    if raws == [] then Success([])
    else
      match NormalizeVerse(raws[0], wordLang)
      case Failure(e) => Failure(e)
      case Success(v) =>
        match NormalizeAll(raws[1..], wordLang)
        case Failure(e) => Failure(e)
        case Success(vs) => Success([v] + vs)
  }

  // ---------------------------------------------------------------------------
  // Pages of verses

  datatype PaginatedVerses = PaginatedVerses(verses: seq<Value>, totalPages: Value)

  /** `data.meta?.total_pages || data.pagination?.total_pages || 1` */
  function TotalPages(data: Value): (r: Value)
    ensures Truthy(r)
    ensures Truthy(Member(Member(data, "meta"), "total_pages")) ==> r == Member(Member(data, "meta"), "total_pages")
    ensures !Truthy(Member(Member(data, "meta"), "total_pages")) && Truthy(Member(Member(data, "pagination"), "total_pages"))
      ==> r == Member(Member(data, "pagination"), "total_pages")
    ensures !Truthy(Member(Member(data, "meta"), "total_pages")) && !Truthy(Member(Member(data, "pagination"), "total_pages"))
      ==> r == Num(1)
  {
    Or(Or(Member(Member(data, "meta"), "total_pages"), Member(Member(data, "pagination"), "total_pages")), Num(1))
  }

  /** The body of a page of verses: the verses, each normalised, and the page count. */
  function ReadVersesPage(data: Value, wordLang: string): (r: Result<PaginatedVerses>)
    ensures r.Success? <==>
      && !Nullish(data) && Member(data, "verses").Arr?
      && forall i :: 0 <= i < |Member(data, "verses").elems| ==> VerseShaped(Member(data, "verses").elems[i])
    ensures r.Failure? ==> r.error == Malformed
    ensures r.Success? ==>
      var raws := Member(data, "verses").elems;
      && |r.value.verses| == |raws|
      && (forall i :: 0 <= i < |raws| ==> r.value.verses[i] == NormalizeVerse(raws[i], wordLang).value)
      && r.value.totalPages == TotalPages(data) && Truthy(r.value.totalPages)
  {
    if Nullish(data) then Failure(Malformed)
    else
      var raws := Member(data, "verses");
      if !raws.Arr? then Failure(Malformed)
      else
        match NormalizeAll(raws.elems, wordLang)
        case Failure(e) => Failure(e)
        case Success(verses) => Success(PaginatedVerses(verses, TotalPages(data)))
  }

  /** The three ways verses are addressed. */
  datatype Scheme = ByChapter | ByJuz | ByPage

  function Segment(scheme: Scheme): string {
    match scheme
    case ByChapter => "by_chapter"
    case ByJuz => "by_juz"
    case ByPage => "by_page"
  }

  /**
   * The query string every page-of-verses request carries; the numbers are given
   * in decimal form.
   */
  function VersesQuery(wordLang: string, translationId: string, perPage: string, page: string): string {
    "language=" + wordLang + "&words=true&word_translation_language=" + wordLang
    + "&word_fields=text_uthmani&translations=" + translationId
    + "&fields=text_uthmani,audio&per_page=" + perPage + "&page=" + page
  }

  /** A page-of-verses URL: the path names the scheme and the id, the query is shared. */
  function VersesUrl(base: string, scheme: Scheme, id: string, query: string): string {
    base + "/verses/" + Segment(scheme) + "/" + id + "?" + query
  }

  /** The shared query for numeric arguments. */
  function QueryFor(wordLang: string, translationId: nat, perPage: nat, page: nat): string {
    VersesQuery(wordLang, Decimal(translationId), Decimal(perPage), Decimal(page))
  }

  /**
   * The literal template `prefix?language=…&page=p` is the prefix, a `?` and the
   * shared query: the literal pieces are parameters, so only the first one is compared.
   */
  lemma QuerySplits(prefix: string, head: string, first: string, lang: string, a: string, b: string,
                    t: string, c: string, pp: string, d: string, p: string)
    requires head == "?" + first
    ensures prefix + head + lang + a + lang + b + t + c + pp + d + p
         == prefix + "?" + (first + lang + a + lang + b + t + c + pp + d + p)
  {
  }

  /** The path `/verses/by_x/` is `/verses/`, the scheme's segment and `/`. */
  lemma PathSplits(base: string, path: string, segment: string, id: string)
    requires path == "/verses/" + segment + "/"
    ensures base + path + id == base + "/verses/" + segment + "/" + id
  {
  }

  /** The first two literal pieces of the chapter URL's steps join into the shared template's piece. */
  lemma WordsPieces()
    ensures "&words=true" + "&word_translation_language=" == "&words=true&word_translation_language="
  {
  }

  /** The three `+=` steps of the chapter URL join into one template. */
  lemma ChapterStepsJoin(prefix: string, head: string, lang: string, w: string, v: string, wv: string,
                         b: string, t: string, c: string, pp: string, d: string, p: string)
    requires wv == w + v
    ensures (prefix + head + lang + w) + (v + lang) + (b + t + c + pp + d + p)
         == prefix + head + lang + wv + lang + b + t + c + pp + d + p
  {
  }

  /** The URL `getVersesByChapter` builds, in its three steps (`let url = …; url += …; url += …`). */
  function ChapterUrl(base: string, chapterId: string, translationId: nat, page: nat, perPage: nat, wordLang: string): (url: string)
    ensures url == VersesUrl(base, ByChapter, chapterId, QueryFor(wordLang, translationId, perPage, page))
  {
    var t, pp, p := Decimal(translationId), Decimal(perPage), Decimal(page);
    var prefix := base + "/verses/by_chapter/" + chapterId;
    WordsPieces();
    ChapterStepsJoin(prefix, "?language=", wordLang, "&words=true", "&word_translation_language=",
                     "&words=true&word_translation_language=", "&word_fields=text_uthmani&translations=", t,
                     "&fields=text_uthmani,audio&per_page=", pp, "&page=", p);
    QuerySplits(prefix, "?language=", "language=", wordLang, "&words=true&word_translation_language=",
                "&word_fields=text_uthmani&translations=", t, "&fields=text_uthmani,audio&per_page=", pp, "&page=", p);
    PathSplits(base, "/verses/by_chapter/", "by_chapter", chapterId);
    (base + "/verses/by_chapter/" + chapterId + "?language=" + wordLang + "&words=true")
    + ("&word_translation_language=" + wordLang)
    + ("&word_fields=text_uthmani&translations=" + t + "&fields=text_uthmani,audio&per_page=" + pp + "&page=" + p)
  }

  /** The URL `getVersesByJuz` builds. */
  function JuzUrl(base: string, juzId: string, translationId: nat, page: nat, perPage: nat, wordLang: string): (url: string)
    ensures url == VersesUrl(base, ByJuz, juzId, QueryFor(wordLang, translationId, perPage, page))
  {
    var t, pp, p := Decimal(translationId), Decimal(perPage), Decimal(page);
    QuerySplits(base + "/verses/by_juz/" + juzId, "?language=", "language=", wordLang, "&words=true&word_translation_language=",
                "&word_fields=text_uthmani&translations=", t, "&fields=text_uthmani,audio&per_page=", pp, "&page=", p);
    PathSplits(base, "/verses/by_juz/", "by_juz", juzId);
    base + "/verses/by_juz/" + juzId + "?language=" + wordLang + "&words=true&word_translation_language=" + wordLang
    + "&word_fields=text_uthmani&translations=" + t + "&fields=text_uthmani,audio&per_page=" + pp + "&page=" + p
  }

  /** The URL `getVersesByPage` builds. */
  function PageUrl(base: string, pageId: string, translationId: nat, page: nat, perPage: nat, wordLang: string): (url: string)
    ensures url == VersesUrl(base, ByPage, pageId, QueryFor(wordLang, translationId, perPage, page))
  {
    var t, pp, p := Decimal(translationId), Decimal(perPage), Decimal(page);
    QuerySplits(base + "/verses/by_page/" + pageId, "?language=", "language=", wordLang, "&words=true&word_translation_language=",
                "&word_fields=text_uthmani&translations=", t, "&fields=text_uthmani,audio&per_page=", pp, "&page=", p);
    PathSplits(base, "/verses/by_page/", "by_page", pageId);
    base + "/verses/by_page/" + pageId + "?language=" + wordLang + "&words=true&word_translation_language=" + wordLang
    + "&word_fields=text_uthmani&translations=" + t + "&fields=text_uthmani,audio&per_page=" + pp + "&page=" + p
  }

  /** Splits a URL at its first `?` into the path and the query string. */
  function SplitAtQuery(url: string): (string, string) {
    if url == [] then ("", "")
    else if url[0] == '?' then ("", url[1..])
    else
      var (path, query) := SplitAtQuery(url[1..]);
      ([url[0]] + path, query)
  }

  lemma {:induction false} SplitAtFirstQuery(path: string, query: string)
    requires '?' !in path
    ensures SplitAtQuery(path + "?" + query) == (path, query)
  {
    if path != [] {
      assert (path + "?" + query)[1..] == path[1..] + "?" + query;
      SplitAtFirstQuery(path[1..], query);
      assert [path[0]] + path[1..] == path;
    }
  }

  lemma NoQueryInPath(base: string, segment: string, id: string)
    requires '?' !in base && '?' !in segment && '?' !in id
    ensures '?' !in base + "/verses/" + segment + "/" + id
  {
  }

  /** A page-of-verses URL splits at its first `?` into its path and its query. */
  lemma VersesUrlSplits(base: string, scheme: Scheme, id: string, query: string)
    requires '?' !in base && '?' !in id
    ensures SplitAtQuery(VersesUrl(base, scheme, id, query)) == (base + "/verses/" + Segment(scheme) + "/" + id, query)
  {
    NoQueryInPath(base, Segment(scheme), id);
    SplitAtFirstQuery(base + "/verses/" + Segment(scheme) + "/" + id, query);
  }

  /**
   * For the same arguments the three requests carry the same query string, and
   * their paths differ only in the scheme's segment.
   */
  lemma SchemesShareQuery(base: string, id: string, translationId: nat, page: nat, perPage: nat, wordLang: string)
    requires '?' !in base && '?' !in id
    ensures var q := QueryFor(wordLang, translationId, perPage, page);
      && SplitAtQuery(ChapterUrl(base, id, translationId, page, perPage, wordLang)) == (base + "/verses/by_chapter/" + id, q)
      && SplitAtQuery(JuzUrl(base, id, translationId, page, perPage, wordLang)) == (base + "/verses/by_juz/" + id, q)
      && SplitAtQuery(PageUrl(base, id, translationId, page, perPage, wordLang)) == (base + "/verses/by_page/" + id, q)
  {
    var q := QueryFor(wordLang, translationId, perPage, page);
    VersesUrlSplits(base, ByChapter, id, q);
    VersesUrlSplits(base, ByJuz, id, q);
    VersesUrlSplits(base, ByPage, id, q);
    PathSplits(base, "/verses/by_chapter/", "by_chapter", id);
    PathSplits(base, "/verses/by_juz/", "by_juz", id);
    PathSplits(base, "/verses/by_page/", "by_page", id);
  }

  // ---------------------------------------------------------------------------
  // Requests

  /** The rule every request shares: a non-ok response is an error, otherwise the body is read. */
  function Checked<T>(res: Response, what: string, read: Value -> Result<T>): (r: Result<T>)
    ensures !res.Ok() ==>
      && r == Failure(FetchFailed(what, res.status))
      && StartsWith(Message(r.error), "Failed to " + what + ": ")
      && ParseDecimal(Message(r.error)[|"Failed to " + what + ": "|..]) == res.status
    ensures res.Ok() ==> r == read(res.body)
  {
    if !res.Ok() then Failure(FetchFailed(what, res.status)) else read(res.body)
  }

  /** `data.key`, which throws when the body is `null`. */
  function Field(data: Value, key: string): (r: Result<Value>)
    ensures r.Success? <==> !Nullish(data)
    ensures r.Success? ==> r.value == Member(data, key)
  {
    if Nullish(data) then Failure(Malformed) else Success(Member(data, key))
  }

  /**
   * `getVersesByChapter(chapterId, translationId, page = 1, perPage = 20, wordLang = 'en')`;
   * an absent argument is `None`.
   */
  function GetVersesByChapter(fetch: string -> Response, base: string, chapterId: string, translationId: nat,
                              page: Option<nat>, perPage: Option<nat>, wordLang: Option<string>): (r: Result<PaginatedVerses>)
    ensures var lang := wordLang.GetOr("en");
      var res := fetch(VersesUrl(base, ByChapter, chapterId, QueryFor(lang, translationId, perPage.GetOr(20), page.GetOr(1))));
      && (!res.Ok() ==> r == Failure(FetchFailed("fetch verses", res.status)))
      && (res.Ok() ==> r == ReadVersesPage(res.body, lang))
  {
    var lang := wordLang.GetOr("en");
    var res := fetch(ChapterUrl(base, chapterId, translationId, page.GetOr(1), perPage.GetOr(20), lang));
    Checked(res, "fetch verses", data => ReadVersesPage(data, lang))
  }

  /** `getVersesByJuz(juzId, translationId, page = 1, perPage = 20, wordLang = 'en')` */
  function GetVersesByJuz(fetch: string -> Response, base: string, juzId: string, translationId: nat,
                          page: Option<nat>, perPage: Option<nat>, wordLang: Option<string>): (r: Result<PaginatedVerses>)
    ensures var lang := wordLang.GetOr("en");
      var res := fetch(VersesUrl(base, ByJuz, juzId, QueryFor(lang, translationId, perPage.GetOr(20), page.GetOr(1))));
      && (!res.Ok() ==> r == Failure(FetchFailed("fetch verses", res.status)))
      && (res.Ok() ==> r == ReadVersesPage(res.body, lang))
  {
    var lang := wordLang.GetOr("en");
    var res := fetch(JuzUrl(base, juzId, translationId, page.GetOr(1), perPage.GetOr(20), lang));
    Checked(res, "fetch verses", data => ReadVersesPage(data, lang))
  }

  /** `getVersesByPage(pageId, translationId, page = 1, perPage = 20, wordLang = 'en')` */
  function GetVersesByPage(fetch: string -> Response, base: string, pageId: string, translationId: nat,
                           page: Option<nat>, perPage: Option<nat>, wordLang: Option<string>): (r: Result<PaginatedVerses>)
    ensures var lang := wordLang.GetOr("en");
      var res := fetch(VersesUrl(base, ByPage, pageId, QueryFor(lang, translationId, perPage.GetOr(20), page.GetOr(1))));
      && (!res.Ok() ==> r == Failure(FetchFailed("fetch verses", res.status)))
      && (res.Ok() ==> r == ReadVersesPage(res.body, lang))
  {
    var lang := wordLang.GetOr("en");
    var res := fetch(PageUrl(base, pageId, translationId, page.GetOr(1), perPage.GetOr(20), lang));
    Checked(res, "fetch verses", data => ReadVersesPage(data, lang))
  }

  /** One search result in the verse shape: id, key, text and translations, and no words. */
  function SearchHit(hit: Value): (v: Value)
    ensures v.Obj? && v.fields.Keys == {"id", "verse_key", "text_uthmani", "translations"}
    ensures v.fields["id"] == Member(hit, "verse_id") && v.fields["verse_key"] == Member(hit, "verse_key")
    ensures v.fields["text_uthmani"] == Member(hit, "text") && v.fields["translations"] == Member(hit, "translations")
  {
    Obj(map["id" := Member(hit, "verse_id"), "verse_key" := Member(hit, "verse_key"),
            "text_uthmani" := Member(hit, "text"), "translations" := Member(hit, "translations")])
  }

  /** `data.search?.results || []`, each result mapped to the verse shape. */
  function ReadSearch(data: Value): (r: Result<seq<Value>>)
    ensures Nullish(data) ==> r == Failure(Malformed)
    ensures !Nullish(data) && !Truthy(Member(Member(data, "search"), "results")) ==> r == Success([])
    ensures r.Success? <==>
      var results := Member(Member(data, "search"), "results");
      !Nullish(data) && (!Truthy(results) || (results.Arr? && forall e :: e in results.elems ==> !Nullish(e)))
    ensures r.Failure? ==> r.error == Malformed
    ensures r.Success? && Truthy(Member(Member(data, "search"), "results")) ==>
      var hits := Member(Member(data, "search"), "results").elems;
      && |r.value| == |hits|
      && forall i :: 0 <= i < |hits| ==> r.value[i] == SearchHit(hits[i]) && "words" !in r.value[i].fields
  {
    if Nullish(data) then Failure(Malformed)
    else
      var results := Or(Member(Member(data, "search"), "results"), Arr([]));
      if results.Arr? && forall e :: e in results.elems ==> !Nullish(e) then
        var hits := seq(|results.elems|, i requires 0 <= i < |results.elems| => SearchHit(results.elems[i]));
        assert results == Arr([]) ==> hits == [];
        Success(hits)
      else Failure(Malformed)
  }

  /** `searchVerses(query)`; `encode` stands for `encodeURIComponent`. */
  function SearchVerses(fetch: string -> Response, base: string, encode: string -> string, query: string): (r: Result<seq<Value>>)
    ensures var res := fetch(base + "/search?q=" + encode(query) + "&size=20&translations=20");
      && (!res.Ok() ==> r == Failure(FetchFailed("search verses", res.status)))
      && (res.Ok() ==> r == ReadSearch(res.body))
  {
    var res := fetch(base + "/search?q=" + encode(query) + "&size=20&translations=20");
    Checked(res, "search verses", ReadSearch)
  }

  /** `getChapters()`: the `chapters` field of the body. */
  function GetChapters(fetch: string -> Response, base: string): (r: Result<Value>)
    ensures var res := fetch(base + "/chapters?language=en");
      && (!res.Ok() ==> r == Failure(FetchFailed("fetch chapters", res.status)))
      && (res.Ok() ==> r == Field(res.body, "chapters"))
  {
    Checked(fetch(base + "/chapters?language=en"), "fetch chapters", data => Field(data, "chapters"))
  }

  /** `getTranslations()`: the `translations` field of the body. */
  function GetTranslations(fetch: string -> Response, base: string): (r: Result<Value>)
    ensures var res := fetch(base + "/resources/translations");
      && (!res.Ok() ==> r == Failure(FetchFailed("fetch translations", res.status)))
      && (res.Ok() ==> r == Field(res.body, "translations"))
  {
    Checked(fetch(base + "/resources/translations"), "fetch translations", data => Field(data, "translations"))
  }

  /** `getWordTranslations()`: the word-by-word resources only. */
  function GetWordTranslations(fetch: string -> Response, base: string): (r: Result<Value>)
    ensures var res := fetch(base + "/resources/translations?resource_type=word_by_word");
      && (!res.Ok() ==> r == Failure(FetchFailed("fetch translations", res.status)))
      && (res.Ok() ==> r == Field(res.body, "translations"))
  {
    Checked(fetch(base + "/resources/translations?resource_type=word_by_word"), "fetch translations",
            data => Field(data, "translations"))
  }

  /** `getTafsirByVerse(verseKey, tafsirId = 169)`: `data.tafsir?.text`. */
  function GetTafsirByVerse(fetch: string -> Response, base: string, encode: string -> string,
                            verseKey: string, tafsirId: Option<nat>): (r: Result<Value>)
    ensures var res := fetch(base + "/tafsirs/" + Decimal(tafsirId.GetOr(169)) + "/by_ayah/" + encode(verseKey));
      && (!res.Ok() ==> r == Failure(FetchFailed("fetch tafsir", res.status)))
      && (res.Ok() && Nullish(res.body) ==> r == Failure(Malformed))
      && (res.Ok() && !Nullish(res.body) ==> r == Success(Member(Member(res.body, "tafsir"), "text")))
  {
    var url := base + "/tafsirs/" + Decimal(tafsirId.GetOr(169)) + "/by_ayah/" + encode(verseKey);
    Checked(fetch(url), "fetch tafsir", data => if Nullish(data) then Failure(Malformed) else Success(Member(Member(data, "tafsir"), "text")))
  }

  /** `getJuz(juzId)`: the `juz` field of the body. */
  function GetJuz(fetch: string -> Response, base: string, juzId: string): (r: Result<Value>)
    ensures var res := fetch(base + "/juzs/" + juzId);
      && (!res.Ok() ==> r == Failure(FetchFailed("fetch juz", res.status)))
      && (res.Ok() ==> r == Field(res.body, "juz"))
  {
    Checked(fetch(base + "/juzs/" + juzId), "fetch juz", data => Field(data, "juz"))
  }

  /** `getRandomVerse(translationId)`: the verse normalised with the default word language. */
  function GetRandomVerse(fetch: string -> Response, base: string, translationId: nat): (r: Result<Value>)
    ensures var res := fetch(base + "/verses/random?translations=" + Decimal(translationId) + "&fields=text_uthmani");
      && (!res.Ok() ==> r == Failure(FetchFailed("fetch random verse", res.status)))
      && (res.Ok() && Nullish(res.body) ==> r == Failure(Malformed))
      && (res.Ok() && !Nullish(res.body) ==> r == NormalizeVerse(Member(res.body, "verse"), "en"))
  {
    var url := base + "/verses/random?translations=" + Decimal(translationId) + "&fields=text_uthmani";
    Checked(fetch(url), "fetch random verse", data => if Nullish(data) then Failure(Malformed) else NormalizeVerse(Member(data, "verse"), "en"))
  }
}
