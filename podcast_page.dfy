/**
 * The podcast library page: the records it shows (the fetched metadata with
 * storage URLs attached), the search box that narrows them, the duration
 * label on each card, and the selection of the podcast the player bar plays.
 */
module PodcastPage {
  import opened Optional
  import opened Text
  import opened Search
  import opened Clock
  import R2Config
  import opened PodcastPlayer

  // ---------------------------------------------------------------------------
  // Attaching storage URLs to the fetched metadata

  /** One fetched record with its audio and thumbnail URLs built from its id; every metadata field is kept. */
  function WithUrls(m: R2Config.PodcastRecord): (p: Podcast)
    ensures Metadata(p) == m
  {
    Podcast(m.id, m.title, m.description,
            R2Config.BuildAudioUrl(m.id), Some(R2Config.BuildThumbnailUrl(m.id)),
            m.duration, m.publishDate, m.category, m.fileSize)
  }

  /** The URLs attached to a record name the record's own id. */
  lemma WithUrlsNamesId(m: R2Config.PodcastRecord)
    ensures R2Config.AudioId(WithUrls(m).audioUrl) == Some(m.id)
    ensures WithUrls(m).thumbnailUrl.Some? && R2Config.ThumbnailId(WithUrls(m).thumbnailUrl.value) == Some(m.id)
  {
    R2Config.AudioIdIff(R2Config.BuildAudioUrl(m.id), m.id);
    R2Config.ThumbnailIdIff(R2Config.BuildThumbnailUrl(m.id), m.id);
  }

  /** A podcast with its URLs forgotten: the metadata it was made from. */
  function Metadata(p: Podcast): R2Config.PodcastRecord {
    R2Config.PodcastRecord(p.id, p.title, p.description, p.duration, p.publishDate, p.category, p.fileSize)
  }

  /** The transform applied to fetched metadata, record by record. */
  function TransformPodcasts(data: seq<R2Config.PodcastRecord>): (r: seq<Podcast>)
    ensures |r| == |data|
  {
    seq(|data|, i requires 0 <= i < |data| => WithUrls(data[i]))
  }

  /** Every transformed record keeps its metadata fields, and its URLs name the record's own id. */
  lemma TransformAttachesUrls(data: seq<R2Config.PodcastRecord>)
    ensures var r := TransformPodcasts(data);
      && (forall i :: 0 <= i < |data| ==> Metadata(r[i]) == data[i])
      && (forall i :: 0 <= i < |data| ==> R2Config.AudioId(r[i].audioUrl) == Some(data[i].id))
      && (forall i :: 0 <= i < |data| ==>
            r[i].thumbnailUrl.Some? && R2Config.ThumbnailId(r[i].thumbnailUrl.value) == Some(data[i].id))
  {
    var r := TransformPodcasts(data);
    forall i | 0 <= i < |data|
      ensures Metadata(r[i]) == data[i] && R2Config.AudioId(r[i].audioUrl) == Some(data[i].id)
      ensures r[i].thumbnailUrl.Some? && R2Config.ThumbnailId(r[i].thumbnailUrl.value) == Some(data[i].id)
    {
      assert r[i] == WithUrls(data[i]);
      WithUrlsNamesId(data[i]);
    }
  }

  /** Records with distinct ids get distinct audio URLs and distinct thumbnail URLs. */
  lemma TransformKeepsUrlsApart(data: seq<R2Config.PodcastRecord>)
    requires forall i, j :: 0 <= i < j < |data| ==> data[i].id != data[j].id
    ensures var r := TransformPodcasts(data);
      forall i, j :: 0 <= i < j < |r| ==>
        r[i].audioUrl != r[j].audioUrl && r[i].thumbnailUrl != r[j].thumbnailUrl
  {
    var r := TransformPodcasts(data);
    TransformAttachesUrls(data);
    forall i, j | 0 <= i < j < |r|
      ensures r[i].audioUrl != r[j].audioUrl && r[i].thumbnailUrl != r[j].thumbnailUrl
    {
      assert R2Config.AudioId(r[i].audioUrl) != R2Config.AudioId(r[j].audioUrl);
      assert R2Config.ThumbnailId(r[i].thumbnailUrl.value) != R2Config.ThumbnailId(r[j].thumbnailUrl.value);
    }
  }

  /** The three fetched podcasts play from three different files and show three different thumbnails. */
  lemma FetchedUrlsApart()
    ensures var r := TransformPodcasts(R2Config.FetchPodcastsFromR2());
      |r| == 3 &&
      forall i, j :: 0 <= i < j < |r| ==>
        r[i].audioUrl != r[j].audioUrl && r[i].thumbnailUrl != r[j].thumbnailUrl
  {
    TransformKeepsUrlsApart(R2Config.FetchPodcastsFromR2());
  }

  // ---------------------------------------------------------------------------
  // Search

  /**
   * The card test: the lower-cased title, description or category contains
   * the lower-cased query. The empty query occurs in every field.
   */
  predicate Matches(p: Podcast, query: string)
    ensures query == "" ==> Matches(p, query)
  {
    var q := ToLower(query);
    Includes(ToLower(p.title), q) || Includes(ToLower(p.description), q) || Includes(ToLower(p.category), q)
  }

  /** The search effect: a query that is blank once trimmed shows every podcast, any other filters them. */
  function FilterPodcasts(podcasts: seq<Podcast>, query: string): (r: seq<Podcast>)
    ensures IsBlank(query) ==> r == podcasts
    ensures |r| <= |podcasts|
  {
    if IsBlank(query) then podcasts else Filter(podcasts, p => Matches(p, query))
  }

  /** A query that is not blank keeps exactly the podcasts that match it as typed, untrimmed. */
  lemma FilterPodcastsKeepsMatches(podcasts: seq<Podcast>, query: string)
    requires !IsBlank(query)
    ensures forall p :: p in FilterPodcasts(podcasts, query) <==> p in podcasts && Matches(p, query)
  {
    FilterMembers(podcasts, p => Matches(p, query));
  }

  /** The result keeps the list's order and adds nothing. */
  lemma FilterPodcastsIsSubsequence(podcasts: seq<Podcast>, query: string)
    ensures IsSubsequence(FilterPodcasts(podcasts, query), podcasts)
  {
    if IsBlank(query) {
      SubsequenceReflexive(podcasts);
    } else {
      FilterIsSubsequence(podcasts, p => Matches(p, query));
    }
  }

  /** A query made only of spaces, tabs, line breaks and the like shows every podcast. */
  lemma WhitespaceQueryShowsAll(podcasts: seq<Podcast>, query: string)
    requires forall i :: 0 <= i < |query| ==> IsTrimmable(query[i])
    ensures FilterPodcasts(podcasts, query) == podcasts
  {
    BlankIff(query);
  }

  /** Letter case in the query does not matter. */
  lemma QueryCaseIgnored(podcasts: seq<Podcast>, query: string)
    ensures FilterPodcasts(podcasts, ToLower(query)) == FilterPodcasts(podcasts, query)
  {
    ToLowerKeepsBlank(query);
    if !IsBlank(query) {
      ToLowerIdempotent(query);
      FilterSameTest(podcasts, p => Matches(p, ToLower(query)), p => Matches(p, query));
    }
  }

  /** Filtering a one-card list either keeps the card or empties the list. */
  lemma FilterOne(p: Podcast, query: string)
    requires !IsBlank(query)
    ensures FilterPodcasts([p], query) == if Matches(p, query) then [p] else []
  {
    assert [p][1..] == [];
  }

  /**
   * Only blankness is tested on the trimmed query: matching uses it as
   * typed, so a leading space can exclude a podcast the bare word finds.
   */
  lemma UntrimmedQueryMatters()
    ensures var p := Podcast("ai", "AI", "", "", None, 0, "", "", 0);
      FilterPodcasts([p], "ai") == [p] && FilterPodcasts([p], " ai") == []
  {
    var p := Podcast("ai", "AI", "", "", None, 0, "", "", 0);
    assert Trim("ai") == "ai";
    assert Trim(" ai") == "ai" by {
      assert " ai"[1..] == "ai";
    }
    assert ToLower("AI") == "ai";
    assert ToLower(" ai") == " ai";
    assert Includes("ai", "ai") by {
      assert "ai"[..2] == "ai";
    }
    assert !Includes("ai", " ai") && !Includes("", " ai");
    FilterOne(p, "ai");
    FilterOne(p, " ai");
  }

  // ---------------------------------------------------------------------------
  // Duration label

  /** `formatDuration`: `Hh Mm` from the first full hour on, `Mm` before it; seconds are dropped. */
  function FormatDuration(seconds: real): (r: string)
    requires seconds >= 0.0
    ensures |r| >= 2 && r[|r| - 1] == 'm'
  {
    DurationLabel(Hours(seconds), Minutes(seconds))
  }

  /** The label for whole hours and minutes; it always ends in the minutes' unit `m`. */
  function DurationLabel(hours: nat, minutes: nat): (text: string)
    ensures |text| >= 2 && text[|text| - 1] == 'm'
  {
    if hours > 0 then NatToString(hours) + "h " + NatToString(minutes) + "m" else NatToString(minutes) + "m"
  }

  /** A field of a duration label: a number followed by its unit letter. */
  function UnitField(field: string, unit: char): Option<nat> {
    if field != [] && field[|field| - 1] == unit then ParseNat(field[..|field| - 1]) else None
  }

  /** Reads a duration label back into whole minutes: `Hh Mm` or `Mm`. */
  function ParseDuration(text: string): Option<nat> {
    var fields := Split(text, ' ');
    if |fields| == 2 && UnitField(fields[0], 'h').Some? && UnitField(fields[1], 'm').Some? then
      Some(UnitField(fields[0], 'h').value * 60 + UnitField(fields[1], 'm').value)
    else if |fields| == 1 && UnitField(fields[0], 'm').Some? then
      UnitField(fields[0], 'm')
    else
      None
  }

  lemma UnitFieldOf(n: nat, unit: char)
    requires !IsDigit(unit) && unit != ' '
    ensures UnitField(NatToString(n) + [unit], unit) == Some(n)
    ensures ' ' !in NatToString(n) + [unit]
  {
    DigitsHaveNoSeparator(NatToString(n), ' ');
    var f := NatToString(n) + [unit];
    assert f[..|f| - 1] == NatToString(n);
    ParseNatToString(n);
  }

  /** The fields of a duration label: `Nh` and `Nm` from the first full hour on, `Nm` alone before it. */
  lemma DurationLabelFields(hours: nat, minutes: nat)
    ensures hours > 0 ==>
      Split(DurationLabel(hours, minutes), ' ') == [NatToString(hours) + "h", NatToString(minutes) + "m"]
    ensures hours == 0 ==> Split(DurationLabel(hours, minutes), ' ') == [NatToString(minutes) + "m"]
  {
    var hh, mm := NatToString(hours) + "h", NatToString(minutes) + "m";
    UnitFieldOf(hours, 'h');
    UnitFieldOf(minutes, 'm');
    if hours > 0 {
      assert DurationLabel(hours, minutes) == hh + [' '] + mm;
      SplitTwo(hh, ' ', mm);
    } else {
      SplitNone(mm, ' ');
    }
  }

  lemma DurationLabelRoundTrip(hours: nat, minutes: nat)
    ensures ParseDuration(DurationLabel(hours, minutes)) == Some(hours * 60 + minutes)
  {
    DurationLabelFields(hours, minutes);
    UnitFieldOf(hours, 'h');
    UnitFieldOf(minutes, 'm');
  }

  /** The duration label has two fields from the first full hour on and one before it. */
  lemma FormatDurationShape(seconds: real)
    requires seconds >= 0.0
    ensures |Split(FormatDuration(seconds), ' ')| == if seconds >= 3600.0 then 2 else 1
  {
    Recombine(seconds);
    DurationLabelFields(Hours(seconds), Minutes(seconds));
  }

  /** The label keeps the whole minutes of the duration: read back, it gives them. */
  lemma FormatDurationRoundTrip(seconds: real)
    requires seconds >= 0.0
    ensures seconds.Floor >= 0 && ParseDuration(FormatDuration(seconds)) == Some(seconds.Floor / 60)
  {
    HoursMinutes(seconds);
    DurationLabelRoundTrip(Hours(seconds), Minutes(seconds));
  }

  /** Durations within the same whole minute get the same label: leftover seconds are not shown. */
  lemma FormatDurationDropsSeconds(a: real, b: real)
    requires a >= 0.0 && b >= 0.0 && a.Floor / 60 == b.Floor / 60
    ensures FormatDuration(a) == FormatDuration(b)
  {
    HoursMinutes(a);
    HoursMinutes(b);
  }

  // ---------------------------------------------------------------------------
  // The page component

  const FetchErrorMessage: string := "Failed to load podcasts. Please try again later."

  class Library {
    var podcasts: seq<Podcast>
    var filteredPodcasts: seq<Podcast>
    var currentPodcast: Option<Podcast>
    var isPlaying: bool
    var searchQuery: string
    var loading: bool
    var error: Option<string>

    /** Once the search effect has run, the cards shown are the search result for the current query. */
    ghost predicate Valid()
      reads this
    {
      filteredPodcasts == FilterPodcasts(podcasts, searchQuery)
    }

    /** The first render: nothing fetched yet, nothing selected. */
    constructor ()
      ensures Valid()
      ensures podcasts == [] && filteredPodcasts == [] && searchQuery == ""
      ensures currentPodcast == None && !isPlaying && loading && error == None
    {
      podcasts, filteredPodcasts := [], [];
      currentPodcast, isPlaying := None, false;
      searchQuery, loading, error := "", true, None;
    }

    /** The fetch succeeded with `data`: its records, with URLs attached, become the library. */
    method LoadPodcasts(data: seq<R2Config.PodcastRecord>)
      requires Valid()
      modifies this
      ensures Valid()
      ensures podcasts == TransformPodcasts(data)
      ensures filteredPodcasts == FilterPodcasts(TransformPodcasts(data), searchQuery)
      ensures error == None && !loading
      ensures searchQuery == old(searchQuery) && currentPodcast == old(currentPodcast) && isPlaying == old(isPlaying)
    {
      podcasts := TransformPodcasts(data);
      filteredPodcasts := FilterPodcasts(podcasts, searchQuery);
      error := None;
      loading := false;
    }

    /** The fetch failed: an error is shown and the library stays as it was. */
    method FailLoad()
      requires Valid()
      modifies this
      ensures Valid()
      ensures error == Some(FetchErrorMessage) && !loading
      ensures podcasts == old(podcasts) && filteredPodcasts == old(filteredPodcasts)
      ensures searchQuery == old(searchQuery) && currentPodcast == old(currentPodcast) && isPlaying == old(isPlaying)
    {
      error := Some(FetchErrorMessage);
      loading := false;
    }

    /** Typing in the search box, followed by the search effect. */
    method SetSearchQuery(query: string)
      requires Valid()
      modifies this
      ensures Valid()
      ensures searchQuery == query && filteredPodcasts == FilterPodcasts(podcasts, query)
      ensures podcasts == old(podcasts) && currentPodcast == old(currentPodcast) && isPlaying == old(isPlaying)
      ensures loading == old(loading) && error == old(error)
    {
      searchQuery := query;
      filteredPodcasts := FilterPodcasts(podcasts, query);
    }

    /**
     * The play button on a card: on the current podcast (same id) it
     * toggles playback; on any other podcast, or with none selected, it
     * selects that podcast and starts playing.
     */
    method HandlePlayPause(p: Podcast)
      requires Valid()
      modifies this
      ensures Valid()
      ensures IsCurrent(old(currentPodcast), p) ==> currentPodcast == old(currentPodcast) && isPlaying == !old(isPlaying)
      ensures !IsCurrent(old(currentPodcast), p) ==> currentPodcast == Some(p) && isPlaying
      ensures ShowsPause(p) <==> (IsCurrent(old(currentPodcast), p) ==> !old(isPlaying))
      ensures podcasts == old(podcasts) && filteredPodcasts == old(filteredPodcasts)
      ensures searchQuery == old(searchQuery) && loading == old(loading) && error == old(error)
    {
      if currentPodcast.Some? && currentPodcast.value.id == p.id {
        isPlaying := !isPlaying;
      } else {
        currentPodcast := Some(p);
        isPlaying := true;
      }
    }

    /** The player bar reports a new play state. */
    method HandlePlayerStateChange(playing: bool)
      requires Valid()
      modifies this
      ensures Valid()
      ensures isPlaying == playing
      ensures podcasts == old(podcasts) && filteredPodcasts == old(filteredPodcasts) && currentPodcast == old(currentPodcast)
      ensures searchQuery == old(searchQuery) && loading == old(loading) && error == old(error)
    {
      isPlaying := playing;
    }

    /** A card shows the pause icon when its podcast is the current one and it is playing. */
    predicate ShowsPause(p: Podcast)
      reads this
      ensures !isPlaying ==> !ShowsPause(p)
      ensures currentPodcast == Some(p) ==> (ShowsPause(p) <==> isPlaying)
    {
      IsCurrent(currentPodcast, p) && isPlaying
    }
  }

  /** `currentPodcast?.id === podcast.id`: podcasts are told apart by id. */
  predicate IsCurrent(current: Option<Podcast>, p: Podcast)
    ensures current == None ==> !IsCurrent(current, p)
    ensures current == Some(p) ==> IsCurrent(current, p)
  {
    current.Some? && current.value.id == p.id
  }

  /** Pressing the same card's button twice leaves the selection and the play state as they were. */
  method PlayPauseTwice(library: Library, p: Podcast)
    requires library.Valid() && IsCurrent(library.currentPodcast, p)
    modifies library
    ensures library.Valid()
    ensures library.currentPodcast == old(library.currentPodcast) && library.isPlaying == old(library.isPlaying)
    ensures library.podcasts == old(library.podcasts) && library.filteredPodcasts == old(library.filteredPodcasts)
    ensures library.searchQuery == old(library.searchQuery)
    ensures library.loading == old(library.loading) && library.error == old(library.error)
  {
    library.HandlePlayPause(p);
    library.HandlePlayPause(p);
  }
}
