/**
 * Where the podcast files live: URLs in the storage bucket are the bucket
 * address, a slash and a path; thumbnails and audio files are found by the
 * podcast's id under fixed folders with fixed extensions. Also the podcast
 * metadata the fetch helper returns, which is a constant list.
 */
module R2Config {
  import opened Optional

  /** The configured bucket address. */
  const BucketUrl: string := "https://your-r2-bucket.cloudfront.net"

  const ThumbnailPrefix: string := BucketUrl + "/thumbnails/"
  const ThumbnailSuffix: string := ".jpg"
  const AudioPrefix: string := BucketUrl + "/podcasts/"
  const AudioSuffix: string := ".mp3"

  /** The part of `u` between `prefix` and `suffix`, when `u` starts and ends with them. */
  function Between(u: string, prefix: string, suffix: string): (r: Option<string>)
    ensures r.Some? ==> prefix + r.value + suffix == u
  {
    if |u| >= |prefix| + |suffix| && u[..|prefix|] == prefix && u[|u| - |suffix|..] == suffix then
      assert u == u[..|prefix|] + u[|prefix|..|u| - |suffix|] + u[|u| - |suffix|..];
      Some(u[|prefix|..|u| - |suffix|])
    else
      None
  }

  lemma BetweenOf(prefix: string, x: string, suffix: string)
    ensures Between(prefix + x + suffix, prefix, suffix) == Some(x)
  {
    var u := prefix + x + suffix;
    assert u[..|prefix|] == prefix;
    assert u[|u| - |suffix|..] == suffix;
    assert u[|prefix|..|u| - |suffix|] == x;
  }

  /** `buildR2Url`: the bucket address, a slash, and the path. */
  function BuildR2Url(path: string): (u: string)
    ensures Between(u, BucketUrl + "/", "") == Some(path)
  {
    BetweenOf(BucketUrl + "/", path, "");
    assert BucketUrl + "/" + path + "" == BucketUrl + "/" + path;
    BucketUrl + "/" + path
  }

  /** `buildThumbnailUrl`: the R2 URL of `thumbnails/<id>.jpg`. */
  function BuildThumbnailUrl(podcastId: string): (u: string)
    ensures u == ThumbnailPrefix + podcastId + ThumbnailSuffix
  {
    assert BucketUrl + "/" + ("thumbnails/" + podcastId + ".jpg")
        == BucketUrl + "/thumbnails/" + podcastId + ".jpg";
    BuildR2Url("thumbnails/" + podcastId + ".jpg")
  }

  /** `buildAudioUrl`: the R2 URL of `podcasts/<id>.mp3`. */
  function BuildAudioUrl(podcastId: string): (u: string)
    ensures u == AudioPrefix + podcastId + AudioSuffix
  {
    assert BucketUrl + "/" + ("podcasts/" + podcastId + ".mp3")
        == BucketUrl + "/podcasts/" + podcastId + ".mp3";
    BuildR2Url("podcasts/" + podcastId + ".mp3")
  }

  /** The podcast id a thumbnail URL names, if it is one. */
  function ThumbnailId(u: string): Option<string> {
    Between(u, ThumbnailPrefix, ThumbnailSuffix)
  }

  /** The podcast id an audio URL names, if it is one. */
  function AudioId(u: string): Option<string> {
    Between(u, AudioPrefix, AudioSuffix)
  }

  /** A URL names id `podcastId` as a thumbnail exactly when it is that id's thumbnail URL. */
  lemma ThumbnailIdIff(u: string, podcastId: string)
    ensures ThumbnailId(u) == Some(podcastId) <==> BuildThumbnailUrl(podcastId) == u
  {
    BetweenOf(ThumbnailPrefix, podcastId, ThumbnailSuffix);
  }

  /** A URL names id `podcastId` as audio exactly when it is that id's audio URL. */
  lemma AudioIdIff(u: string, podcastId: string)
    ensures AudioId(u) == Some(podcastId) <==> BuildAudioUrl(podcastId) == u
  {
    BetweenOf(AudioPrefix, podcastId, AudioSuffix);
  }

  lemma BuildThumbnailUrlInjective(a: string, b: string)
    requires BuildThumbnailUrl(a) == BuildThumbnailUrl(b)
    ensures a == b
  {
    ThumbnailIdIff(BuildThumbnailUrl(a), a);
    ThumbnailIdIff(BuildThumbnailUrl(a), b);
  }

  lemma BuildAudioUrlInjective(a: string, b: string)
    requires BuildAudioUrl(a) == BuildAudioUrl(b)
    ensures a == b
  {
    AudioIdIff(BuildAudioUrl(a), a);
    AudioIdIff(BuildAudioUrl(a), b);
  }

  /**
   * No URL is both an audio URL and a thumbnail URL: right after the bucket
   * address and its slash, one continues with `p` and the other with `t`.
   */
  lemma AudioAndThumbnailDisjoint(u: string)
    ensures AudioId(u) == None || ThumbnailId(u) == None
  {
  }

  lemma AudioUrlIsNoThumbnailUrl(a: string, b: string)
    ensures BuildAudioUrl(a) != BuildThumbnailUrl(b)
  {
    AudioIdIff(BuildAudioUrl(a), a);
    ThumbnailIdIff(BuildAudioUrl(a), b);
    AudioAndThumbnailDisjoint(BuildAudioUrl(a));
  }

  // ---------------------------------------------------------------------------
  // Podcast metadata

  /** One podcast as the metadata lists it, before any URL is attached. */
  datatype PodcastRecord = PodcastRecord(
    id: string,
    title: string,
    description: string,
    duration: nat,
    publishDate: string,
    category: string,
    fileSize: nat)

  const AiDevelopment: PodcastRecord := PodcastRecord(
    "ai-development",
    "The Future of AI Development",
    "A deep dive into the latest trends in artificial intelligence and machine learning.",
    3600, "2024-08-01", "Technology", 52428800)

  const WebDevelopment: PodcastRecord := PodcastRecord(
    "web-development",
    "Modern Web Development Practices",
    "Best practices for building scalable web applications in 2024.",
    2700, "2024-07-28", "Programming", 41943040)

  const CloudInfrastructure: PodcastRecord := PodcastRecord(
    "cloud-infrastructure",
    "Cloud Infrastructure Trends",
    "Exploring the latest developments in cloud computing and infrastructure.",
    4200, "2024-07-25", "Cloud Computing", 61440000)

  /** The metadata `fetchPodcastsFromR2` returns: three fixed records with distinct ids. */
  function FetchPodcastsFromR2(): (r: seq<PodcastRecord>)
    ensures |r| == 3
    ensures forall i, j :: 0 <= i < j < |r| ==> r[i].id != r[j].id
  {
    assert |AiDevelopment.id| == 14 && |WebDevelopment.id| == 15 && |CloudInfrastructure.id| == 20;
    [AiDevelopment, WebDevelopment, CloudInfrastructure]
  }
}
