/**
 * The fixture of the crate's tests (src/lib.rs:121-144): a torrent named
 * "Big Buck Bunny" with no single-file length and eight trackers. The file,
 * its SHA-1 digest and the encoder are outside the model, so the hash and the
 * encoder's outputs for the strings involved are taken as given.
 */
module Fixture {
  import opened Wrappers
  import opened TorrentTypes
  import opened Magnet
  import opened Query
  import opened Seqs

  const Trackers: seq<string> := [
    "udp://tracker.leechers-paradise.org:6969",
    "udp://tracker.coppersurfer.tk:6969",
    "udp://tracker.opentrackr.org:1337",
    "udp://explodie.org:6969",
    "udp://tracker.empire-js.us:1337",
    "wss://tracker.btorrent.xyz",
    "wss://tracker.openwebtorrent.com",
    "wss://tracker.fastcast.nz"]

  const EncodedTrackers: seq<string> := [
    "udp%3A%2F%2Ftracker.leechers-paradise.org%3A6969",
    "udp%3A%2F%2Ftracker.coppersurfer.tk%3A6969",
    "udp%3A%2F%2Ftracker.opentrackr.org%3A1337",
    "udp%3A%2F%2Fexplodie.org%3A6969",
    "udp%3A%2F%2Ftracker.empire-js.us%3A1337",
    "wss%3A%2F%2Ftracker.btorrent.xyz",
    "wss%3A%2F%2Ftracker.openwebtorrent.com",
    "wss%3A%2F%2Ftracker.fastcast.nz"]

  const FixtureHash: string := "3WBFL3G4PSSV7MF37AJSHWDQMLNR63I4"
  const EncodedName: string := "Big%20Buck%20Bunny"

  /** The URI the tests expect, cut at its '&' separators. */
  const ExpectedUri: string :=
    "magnet:?xt=urn:btih:" + FixtureHash
    + "&dn=" + EncodedName
    + "&tr=" + EncodedTrackers[0]
    + "&tr=" + EncodedTrackers[1]
    + "&tr=" + EncodedTrackers[2]
    + "&tr=" + EncodedTrackers[3]
    + "&tr=" + EncodedTrackers[4]
    + "&tr=" + EncodedTrackers[5]
    + "&tr=" + EncodedTrackers[6]
    + "&tr=" + EncodedTrackers[7]

  /** The parameters the fixture yields: its name, then its eight trackers. */
  const ExpectedParams: seq<Param> :=
    [Param("dn", EncodedName)] + seq(8, k requires 0 <= k < 8 => Param("tr", EncodedTrackers[k]))

  /**
   * Whatever `announce` holds and however the trackers are grouped into
   * tiers, the fixture formats to the URI the tests expect.
   */
  lemma FixtureUri(d: MagnetDetail, enc: string -> string)
    requires d.hash == FixtureHash
    requires d.torrent.info.name == Some("Big Buck Bunny") && d.torrent.info.length.None?
    requires d.torrent.announceList.Some? && Flatten(d.torrent.announceList.value) == Trackers
    requires enc("Big Buck Bunny") == EncodedName
    requires forall k :: 0 <= k < |Trackers| ==> enc(Trackers[k]) == EncodedTrackers[k]
    ensures MagnetUri(d, enc) == ExpectedUri
  {
    assert Params(d.torrent, enc) == ExpectedParams;
    ExpectedParamsJoin();
  }

  /** The expected URI up to the end of its `i`-th parameter. */
  function ExpectedUpTo(i: nat): string
    requires 1 <= i <= 9
  {
    if i == 1 then "magnet:?xt=urn:btih:" + FixtureHash + "&dn=" + EncodedName
    else ExpectedUpTo(i - 1) + "&tr=" + EncodedTrackers[i - 2]
  }

  /** The first `i` expected parameters, joined behind the prefix and the hash. */
  lemma {:induction false} ExpectedParamsJoinUpTo(i: nat)
    requires 1 <= i <= 9
    ensures UriPrefix + FixtureHash + "&" + Join(ExpectedParams[..i]) == ExpectedUpTo(i)
  {
    var e := ExpectedParams;
    if i == 1 {
      ExpectedNameJoin();
    } else {
      var head := UriPrefix + FixtureHash + "&";
      var url := EncodedTrackers[i - 2];
      assert head + Join(e[..i - 1]) == ExpectedUpTo(i - 1) by {
        ExpectedParamsJoinUpTo(i - 1);
      }
      assert e[..i] == e[..i - 1] + [Param("tr", url)] by {
        TakeOneMore(e, i - 1);
        assert e == [e[0]] + e[1..];
      }
      AppendTracker(head, e[..i - 1], url, ExpectedUpTo(i - 1));
    }
  }

  lemma ExpectedNameJoin()
    ensures UriPrefix + FixtureHash + "&" + Join(ExpectedParams[..1]) == ExpectedUpTo(1)
  {
    assert Join(ExpectedParams[..1]) == "dn" + "=" + EncodedName;
    assert "&" + "dn" + "=" == "&dn=";
    Regroup(UriPrefix + FixtureHash, "&", "dn" + "=", EncodedName);
  }

  /** The expected parameters, joined behind the prefix and the hash, give the expected URI. */
  lemma ExpectedParamsJoin()
    ensures UriPrefix + FixtureHash + "&" + Join(ExpectedParams) == ExpectedUri
  {
    ExpectedParamsJoinUpTo(9);
    assert ExpectedParams[..9] == ExpectedParams;
  }

  /** The separator and a rendered `tr` parameter read as `&tr=` and the value. */
  lemma TrackerPiece(v: string)
    ensures "&" + Render(Param("tr", v)) == "&tr=" + v
  {
    assert "&" + "tr" + "=" == "&tr=";
  }

  /** A `tr` parameter appended to a non-empty list lengthens the URI by `&tr=` and its value. */
  lemma AppendTracker(head: string, ps: seq<Param>, v: string, u: string)
    requires 0 < |ps| && head + Join(ps) == u
    ensures head + Join(ps + [Param("tr", v)]) == u + "&tr=" + v
  {
    AppendParam(ps, Param("tr", v));
    Regroup(head, Join(ps), "&", Render(Param("tr", v)));
    TrackerPiece(v);
    Assoc(u, "&tr=", v);
  }
}
