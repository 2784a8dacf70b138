/**
 * The parts of backend/clients/youtube_client.py the chunker depends on:
 * the playlist-id normalisation of `from_playlist`, the query-kind check
 * and the page/quota loop of `_execute_query`, and the transcript records
 * `_process_query` turns into the `subtitles`/`timestamps` columns the
 * chunker consumes. The YouTube services are given as data: the pages the
 * metadata endpoint answers with, and the outcome of a transcript fetch.
 */
module YouTube {
  import opened Chunking
  import opened LengthSpec

  datatype Option<+X> = None | Some(value: X)

  // ---------------------------------------------------------------------
  // Playlist ids (`from_playlist`)

  const WatchPrefix: string := "https://www.youtube.com/watch?"
  const ListParameter: string := "&list="

  predicate StartsWith(s: string, prefix: string) {
    |prefix| <= |s| && s[..|prefix|] == prefix
  }

  /** `pat` occurs in `s` at position `j`. */
  predicate OccursAt(s: string, pat: string, j: int) {
    0 <= j && j + |pat| <= |s| && s[j..j + |pat|] == pat
  }

  /** `s.find(pat, from)`: the first position at or after `from` where `pat`
      occurs, or -1 when there is none. */
  function FindFrom(s: string, pat: string, from: nat): (r: int)
    ensures r == -1 || (from <= r && OccursAt(s, pat, r))
    ensures forall j :: from <= j && (r == -1 || j < r) ==> !OccursAt(s, pat, j)
    decreases |s| - from
  {
    if from + |pat| > |s| then -1
    else if s[from..from + |pat|] == pat then from
    else FindFrom(s, pat, from + 1)
  }

  /** `s.find(pat)`. */
  function Find(s: string, pat: string): int {
    FindFrom(s, pat, 0)
  }

  /** `is_url`. */
  predicate IsUrl(playlist: string) {
    StartsWith(playlist, WatchPrefix)
  }

  /** `extract_playlist_id`: the slice from six characters after the first
      `"&list="`; Python's slice of a start past the end is empty. */
  function ExtractPlaylistId(playlist: string): string {
    var i := Find(playlist, ListParameter) + 6;
    if i <= |playlist| then playlist[i..] else []
  }

  /** One element of the `playlist_ids` comprehension: a bare id is kept,
      and a watch URL is cut down to a proper suffix of itself. */
  function NormalizedId(playlist: string): (id: string)
    ensures !IsUrl(playlist) ==> id == playlist
    ensures IsUrl(playlist) ==> |id| < |playlist| && id == playlist[|playlist| - |id|..]
  {
    if IsUrl(playlist) then ExtractPlaylistId(playlist) else playlist
  }

  /** `playlist_ids`: one id per argument, in argument order. */
  function PlaylistIds(playlists: seq<string>): (ids: seq<string>)
    ensures |ids| == |playlists|
    ensures forall k :: 0 <= k < |ids| ==> ids[k] == NormalizedId(playlists[k])
  {
    seq(|playlists|, k requires 0 <= k < |playlists| => NormalizedId(playlists[k]))
  }

  /** What `NormalizedId` returns: a string that is not a watch URL is kept;
      a watch URL gives what follows its first `"&list="`, and without one
      `find` gives -1, so the URL from index 5 on. */
  lemma NormalizedIdCases(playlist: string, j: nat)
    ensures !IsUrl(playlist) ==> NormalizedId(playlist) == playlist
    ensures IsUrl(playlist) && OccursAt(playlist, ListParameter, j) &&
            (forall i :: 0 <= i < j ==> !OccursAt(playlist, ListParameter, i)) ==>
              NormalizedId(playlist) == playlist[j + 6..]
    ensures IsUrl(playlist) && (forall i :: 0 <= i < |playlist| ==> !OccursAt(playlist, ListParameter, i)) ==>
              NormalizedId(playlist) == playlist[5..]
  {
    if IsUrl(playlist) {
      if Find(playlist, ListParameter) >= 0 {
        assert Find(playlist, ListParameter) < |playlist|;
      }
    }
  }

  /** The watch URL of video `video` in playlist `list`. */
  function WatchUrl(video: string, list: string): string {
    WatchPrefix + "v=" + video + ListParameter + list
  }

  /** No `"&list="` starts inside a stretch of `s` that holds no `'&'`. */
  lemma NoListWithoutAmpersand(s: string, i: nat)
    requires i < |s| && s[i] != '&'
    ensures !OccursAt(s, ListParameter, i)
  {
  }

  /** For a video id without `'&'`, the id `from_playlist` takes from the
      video's watch URL is the playlist id the URL carries. */
  lemma WatchUrlRoundTrip(video: string, list: string)
    requires forall i :: 0 <= i < |video| ==> video[i] != '&'
    ensures NormalizedId(WatchUrl(video, list)) == list
  {
    var url := WatchUrl(video, list);
    var j := |WatchPrefix| + 2 + |video|;
    assert url[..|WatchPrefix|] == WatchPrefix;
    assert url[j..j + 6] == ListParameter;
    forall i | 0 <= i < j
      ensures !OccursAt(url, ListParameter, i)
    {
      if i < |WatchPrefix| + 2 {
        assert url[i] == (WatchPrefix + "v=")[i];
      } else {
        assert url[i] == video[i - |WatchPrefix| - 2];
      }
      NoListWithoutAmpersand(url, i);
    }
    NormalizedIdCases(url, j);
    assert url[j + 6..] == list;
  }

  /** `from_playlist` over watch URLs gives back their playlist ids, in order. */
  lemma PlaylistIdsOfUrls(videos: seq<string>, lists: seq<string>)
    requires |videos| == |lists|
    requires forall k, i :: 0 <= k < |videos| && 0 <= i < |videos[k]| ==> videos[k][i] != '&'
    ensures PlaylistIds(seq(|videos|, k requires 0 <= k < |videos| => WatchUrl(videos[k], lists[k]))) == lists
  {
    var urls := seq(|videos|, k requires 0 <= k < |videos| => WatchUrl(videos[k], lists[k]));
    forall k | 0 <= k < |videos|
      ensures PlaylistIds(urls)[k] == lists[k]
    {
      WatchUrlRoundTrip(videos[k], lists[k]);
    }
  }

  // ---------------------------------------------------------------------
  // `_execute_query`

  datatype QueryKind = Metadata | Transcript

  /** The assertion opening `_execute_query`. */
  function ParseQueryKind(queryKind: string): (r: Option<QueryKind>)
    ensures r.Some? <==> queryKind == "metadata" || queryKind == "transcript"
    ensures r == Some(Metadata) <==> queryKind == "metadata"
  {
    if queryKind == "metadata" then Some(Metadata)
    else if queryKind == "transcript" then Some(Transcript)
    else None
  }

  /** One response of the metadata endpoint. */
  datatype Page<I> = Page(items: seq<I>, nextPageToken: Option<string>)

  /** `response.get("nextPageToken", "")`. */
  function NextToken<I>(p: Page<I>): string {
    if p.nextPageToken.Some? then p.nextPageToken.value else ""
  }

  /** The endpoint eventually answers without a further page token. */
  predicate Ends<I>(pages: seq<Page<I>>, from: nat) {
    exists i :: from <= i < |pages| && NextToken(pages[i]) == ""
  }

  /** The position of the first page at or after `from` without a next
      page token: the last page the loop fetches. */
  function LastPageFrom<I>(pages: seq<Page<I>>, from: nat): (n: nat)
    requires Ends(pages, from)
    ensures from <= n < |pages| && NextToken(pages[n]) == ""
    ensures forall k :: from <= k < n ==> NextToken(pages[k]) != ""
    decreases |pages| - from
  {
    if NextToken(pages[from]) == "" then from
    else
      assert forall i :: from <= i < |pages| && NextToken(pages[i]) == "" ==> from + 1 <= i;
      LastPageFrom(pages, from + 1)
  }

  function LastPage<I>(pages: seq<Page<I>>): nat
    requires Ends(pages, 0)
  {
    LastPageFrom(pages, 0)
  }

  /** `kwargs.get(key, default)` for one optional argument. */
  function GetOr<X>(o: Option<X>, default: X): X {
    if o.Some? then o.value else default
  }

  /** The client with its `state` dictionary; the API key and the service
      handles are not part of this model. */
  class YouTubeClient {
    var unitsConsumed: int
    var dailyQuota: int

    constructor ()
      ensures unitsConsumed == 0 && dailyQuota == 10000
    {
      unitsConsumed := 0;
      dailyQuota := 10000;
    }

    /** The metadata branch of `_execute_query`. `pages` are the endpoint's
        answers in the order it gives them; `requests` are the page tokens
        the loop sends and `batches` the item lists it yields, one per page. */
    method ExecuteMetadataQuery<I>(pages: seq<Page<I>>, pageToken: Option<string>, maxResults: Option<int>)
      returns (requests: seq<string>, batches: seq<seq<I>>)
      requires Ends(pages, 0)
      modifies this
      ensures |requests| == |batches| == LastPage(pages) + 1
      ensures requests[0] == GetOr(pageToken, "")
      ensures forall k :: 0 <= k < LastPage(pages) ==> requests[k + 1] == NextToken(pages[k])
      ensures forall k :: 0 <= k < |batches| ==> batches[k] == pages[k].items
      ensures unitsConsumed == old(unitsConsumed) + |batches| * GetOr(maxResults, 1)
      ensures dailyQuota == old(dailyQuota)
    {
      var last := LastPage(pages);
      var perPage := GetOr(maxResults, 1);
      var token := GetOr(pageToken, "");
      var hasNextPage := true;
      var i := 0;
      requests, batches := [], [];
      while hasNextPage
        invariant i <= last + 1 && (hasNextPage <==> i <= last)
        invariant |requests| == |batches| == i
        invariant i > 0 ==> requests[0] == GetOr(pageToken, "")
        invariant forall k :: 0 <= k < i - 1 ==> requests[k + 1] == NextToken(pages[k])
        invariant hasNextPage ==> token == if i == 0 then GetOr(pageToken, "") else NextToken(pages[i - 1])
        invariant forall k :: 0 <= k < i ==> batches[k] == pages[k].items
        invariant unitsConsumed == old(unitsConsumed) + i * perPage
        invariant dailyQuota == old(dailyQuota)
        decreases last + 1 - i
      {
        requests := requests + [token];
        var response := pages[i];
        token := NextToken(response);
        hasNextPage := token != "";
        unitsConsumed := unitsConsumed + perPage;
        assert (i + 1) * perPage == i * perPage + perPage;
        batches := batches + [response.items];
        i := i + 1;
      }
    }
  }

  // ---------------------------------------------------------------------
  // Transcripts

  /** A time as pandas holds it: a number, or NaN. */
  datatype Time = Seconds(t: real) | NaN

  /** `start + duration` with NaN propagating. */
  function Plus(a: Time, b: Time): (r: Time)
    ensures r.NaN? <==> a.NaN? || b.NaN?
  {
    if a.Seconds? && b.Seconds? then Seconds(a.t + b.t) else NaN
  }

  /** One element of a transcript: its `text`, `start` and `duration`. */
  datatype Entry = Entry(text: Line, start: Time, duration: Time)

  /** What the transcript service did for one video. */
  datatype Fetch = Fetched(entries: seq<Entry>) | Failed

  /** The transcript branch of `_execute_query`: the service's answer, or,
      when the call raised, one entry with NaN everywhere. */
  function TranscriptResponses(f: Fetch): (r: seq<seq<Entry>>)
    ensures |r| == 1
    ensures f.Failed? ==> r[0] == [Entry(NonString, NaN, NaN)]
  {
    match f
    case Fetched(entries) => [entries]
    case Failed => [[Entry(NonString, NaN, NaN)]]
  }

  /** `chain.from_iterable(response)`. */
  function Flatten<X>(xss: seq<seq<X>>): (xs: seq<X>)
    decreases |xss|
  {
    if xss == [] then [] else xss[0] + Flatten(xss[1..])
  }

  /** The transcript branch of `_process_query`: `df.text` and the
      `(start, start + duration)` pairs, entry by entry. */
  function Subtitles(entries: seq<Entry>): (subtitles: seq<Line>)
    ensures |subtitles| == |entries|
    ensures forall k :: 0 <= k < |entries| ==> subtitles[k] == entries[k].text
  {
    seq(|entries|, k requires 0 <= k < |entries| => entries[k].text)
  }

  function Timestamps(entries: seq<Entry>): (timestamps: seq<(Time, Time)>)
    ensures |timestamps| == |entries|
    ensures forall k :: 0 <= k < |entries| ==>
              timestamps[k] == (entries[k].start, Plus(entries[k].start, entries[k].duration))
  {
    seq(|entries|, k requires 0 <= k < |entries| => (entries[k].start, Plus(entries[k].start, entries[k].duration)))
  }

  /** The one-row frame the transcript branch of `_process_query` builds. */
  datatype Columns = Columns(subtitles: seq<Line>, timestamps: seq<(Time, Time)>)

  /** The transcript branch of `_process_query` on the responses of one
      fetch: `pd.DataFrame` of no entries has no `text` column, so `df.text`
      raises AttributeError (`None`); otherwise the subtitle and timestamp
      columns of the flattened entries. */
  function ProcessTranscript(f: Fetch): (r: Option<Columns>)
    ensures r.Some? ==> |r.value.subtitles| == |r.value.timestamps| > 0
  {
    var entries := Flatten(TranscriptResponses(f));
    if entries == [] then None
    else Some(Columns(Subtitles(entries), Timestamps(entries)))
  }

  /** `_process_query` fails exactly on a fetch that succeeded with an empty
      transcript. Otherwise the columns are the fetched entries (or the NaN
      entry), line by line, and they are of equal, non-zero length, as the
      chunker requires. */
  lemma TranscriptColumns(f: Fetch)
    ensures ProcessTranscript(f).None? <==> f == Fetched([])
    ensures f.Fetched? ==> Flatten(TranscriptResponses(f)) == f.entries
    ensures ProcessTranscript(f).Some? ==>
              var cols := ProcessTranscript(f).value;
              var entries := Flatten(TranscriptResponses(f));
              |cols.subtitles| == |cols.timestamps| == |entries| > 0 &&
              cols.subtitles == Subtitles(entries) && cols.timestamps == Timestamps(entries)
  {
    if f.Fetched? {
      assert TranscriptResponses(f)[1..] == [];
      assert f.entries + [] == f.entries;
    } else {
      assert TranscriptResponses(f)[1..] == [];
    }
  }

  /** A video whose transcript could not be fetched gets one line, NaN, for
      the all-NaN time span, and the length strategy turns it into the
      single all-NaN record of that video. */
  lemma FailedFetchChunks(c: Chunker, videoId: string)
    ensures ProcessTranscript(Failed) == Some(Columns([NonString], [(NaN, NaN)]))
    ensures LengthChunks(c, videoId, [NonString], [(NaN, NaN)]) == [NaNRecord(videoId)]
  {
    var entries := Flatten(TranscriptResponses(Failed));
    assert TranscriptResponses(Failed)[1..] == [];
    assert entries == [Entry(NonString, NaN, NaN)];
    assert Subtitles(entries) == [NonString];
    assert Timestamps(entries) == [(NaN, NaN)];
    assert !AllText([NonString]) by {
      assert ![NonString][0].Text?;
    }
  }
}
