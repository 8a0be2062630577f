/**
 * Stream selection in `download_from_youtube`: pytube's `streams.filter(...)`
 * keeps the matching streams in their declared order and `[-1]` takes the
 * last one, raising `IndexError` when nothing matched.
 */
module Streams {
  import opened Base

  /** One entry of `YouTube.streams`: its subtype (the file extension), MIME type and resolution. */
  datatype Stream = Stream(subtype: string, mimeType: string, resolution: Option<string>)

  /**
   * `filter(file_extension="mp4", res=resolution)` for the video stream and
   * `filter(file_extension="mp4", mime_type="audio/mp4")` for the audio stream.
   */
  datatype Query = VideoQuery(res: Option<string>) | AudioQuery

  /** pytube applies a resolution filter only for a truthy `res`: `None` and "" filter nothing. */
  predicate Matches(q: Query, s: Stream)
  {
    match q
    case VideoQuery(res) =>
      s.subtype == "mp4" && (res == None || res == Some("") || s.resolution == res)
    case AudioQuery =>
      s.subtype == "mp4" && s.mimeType == "audio/mp4"
  }

  /** `streams.filter(...)`: the matching streams, in order. */
  function Filter(streams: seq<Stream>, q: Query): (r: seq<Stream>)
    ensures forall k :: 0 <= k < |r| ==> Matches(q, r[k])
  {
    if streams == [] then []
    else
      var last := streams[|streams| - 1];
      Filter(streams[..|streams| - 1], q) + (if Matches(q, last) then [last] else [])
  }

  /** The filter is empty exactly when nothing matches, and its last entry is the last match. */
  lemma {:induction false} FilterLast(streams: seq<Stream>, q: Query)
    ensures Filter(streams, q) == [] <==> forall i :: 0 <= i < |streams| ==> !Matches(q, streams[i])
    ensures Filter(streams, q) != [] ==>
      exists i :: 0 <= i < |streams| && streams[i] == Filter(streams, q)[|Filter(streams, q)| - 1]
        && Matches(q, streams[i])
        && forall j :: i < j < |streams| ==> !Matches(q, streams[j])
  {
    if streams != [] {
      var init := streams[..|streams| - 1];
      var last := streams[|streams| - 1];
      FilterLast(init, q);
      assert forall i :: 0 <= i < |init| ==> init[i] == streams[i];
      if !Matches(q, last) && Filter(init, q) != [] {
        var i :| 0 <= i < |init| && init[i] == Filter(init, q)[|Filter(init, q)| - 1]
          && Matches(q, init[i]) && forall j :: i < j < |init| ==> !Matches(q, init[j]);
        assert streams[i] == init[i];
      }
    }
  }

  /** `streams.filter(...)[-1]`: the last matching stream, or `IndexError` when none matches. */
  function SelectLast(streams: seq<Stream>, q: Query): (r: Result<Stream>)
    ensures r.Err? <==> forall i :: 0 <= i < |streams| ==> !Matches(q, streams[i])
    ensures r.Err? ==> r.error.IndexError?
    ensures r.Ok? ==>
      exists i :: 0 <= i < |streams| && streams[i] == r.value && Matches(q, r.value)
        && forall j :: i < j < |streams| ==> !Matches(q, streams[j])
  {
    FilterLast(streams, q);
    var f := Filter(streams, q);
    if f == [] then Err(IndexError("list index out of range")) else Ok(f[|f| - 1])
  }

  /**
   * With no resolution requested, the "video" query accepts every mp4 stream,
   * so a trailing audio/mp4 stream is the one selected.
   */
  lemma NoResolutionMayPickAudio(video: Stream, audio: Stream)
    requires video == Stream("mp4", "video/mp4", Some("1080p"))
    requires audio == Stream("mp4", "audio/mp4", None)
    ensures SelectLast([video, audio], VideoQuery(None)) == Ok(audio)
  {
    assert [video, audio][..1] == [video];
    assert [video][..0] == [];
  }
}
