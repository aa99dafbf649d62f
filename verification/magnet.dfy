/**
 * `MagnetDetail::as_magnet` (src/lib.rs:47-67): the parameter list
 * (`dn`, then `xl`, then `tr`), the tracker precedence of the tier list over
 * `announce`, and the final `magnet:?xt=urn:btih:<hash>&<params>` string.
 * The percent-encoder `urlencoding::encode` is the parameter `enc`, about
 * which nothing is assumed.
 */
module Magnet {
  import opened Wrappers
  import opened TorrentTypes
  import Decimal
  import opened Query
  import opened Seqs

  const UriPrefix: string := "magnet:?xt=urn:btih:"

  /** Tiers read tier by tier, entry by entry. */
  function Flatten(tiers: seq<seq<string>>): seq<string> {
    if |tiers| == 0 then [] else Flatten(tiers[..|tiers| - 1]) + tiers[|tiers| - 1]
  }

  /** Number of tracker entries over all tiers. */
  function TotalEntries(tiers: seq<seq<string>>): nat {
    if |tiers| == 0 then 0 else TotalEntries(tiers[..|tiers| - 1]) + |tiers[|tiers| - 1]|
  }

  lemma {:induction false} FlattenLength(tiers: seq<seq<string>>)
    ensures |Flatten(tiers)| == TotalEntries(tiers)
    decreases |tiers|
  {
    if |tiers| != 0 {
      FlattenLength(tiers[..|tiers| - 1]);
    }
  }

  lemma {:induction false} FlattenConcat(a: seq<seq<string>>, b: seq<seq<string>>)
    ensures Flatten(a + b) == Flatten(a) + Flatten(b)
    decreases |b|
  {
    if |b| == 0 {
      assert a + b == a;
    } else {
      var b' := b[..|b| - 1];
      assert (a + b)[..|a + b| - 1] == a + b';
      FlattenConcat(a, b');
    }
  }

  /**
   * Entry `j` of tier `i` sits after every entry of the earlier tiers and
   * after the entries before it in its own tier.
   */
  lemma FlattenIndex(tiers: seq<seq<string>>, i: nat, j: nat)
    requires i < |tiers| && j < |tiers[i]|
    ensures TotalEntries(tiers[..i]) + j < |Flatten(tiers)|
    ensures Flatten(tiers)[TotalEntries(tiers[..i]) + j] == tiers[i][j]
  {
    assert tiers == tiers[..i] + ([tiers[i]] + tiers[i + 1..]);
    FlattenConcat(tiers[..i], [tiers[i]] + tiers[i + 1..]);
    FlattenConcat([tiers[i]], tiers[i + 1..]);
    assert Flatten([tiers[i]]) == tiers[i] by {
      assert [tiers[i]][..0] == [];
    }
    FlattenLength(tiers[..i]);
  }

  /** The tracker URLs the formatter emits: the tier list when present, else `announce`. */
  function TrackerUrls(t: Torrent): (urls: seq<string>)
    ensures |urls| == TrackerCount(t)
  {
    match t.announceList
    case Some(tiers) => FlattenLength(tiers); Flatten(tiers)
    case None => [t.announce]
  }

  /** Entry j of tier i sits at `urls[TotalEntries(tiers[..i]) + j]`, for every tier entry. */
  predicate ListsTierEntries(urls: seq<string>, tiers: seq<seq<string>>) {
    forall i, j | 0 <= i < |tiers| && 0 <= j < |tiers[i]| ::
      TotalEntries(tiers[..i]) + j < |urls| && urls[TotalEntries(tiers[..i]) + j] == tiers[i][j]
  }

  /**
   * The tier list wins over `announce`: with one, the URLs are its entries,
   * tier by tier and in order within a tier; without one, the only URL is
   * `announce`.
   */
  lemma TrackerUrlsChoice(t: Torrent)
    ensures t.announceList.None? ==> TrackerUrls(t) == [t.announce]
    ensures t.announceList.Some? ==> ListsTierEntries(TrackerUrls(t), t.announceList.value)
  {
    if t.announceList.Some? {
      var tiers := t.announceList.value;
      var urls := TrackerUrls(t);
      assert urls == Flatten(tiers);
      forall i, j | 0 <= i < |tiers| && 0 <= j < |tiers[i]|
        ensures TotalEntries(tiers[..i]) + j < |urls| && urls[TotalEntries(tiers[..i]) + j] == tiers[i][j]
      {
        FlattenIndex(tiers, i, j);
      }
    }
  }

  /** The `dn` parameter: the encoded name, when there is one. */
  function NameParams(info: Info, enc: string -> string): (ps: seq<Param>)
    ensures |ps| == if info.name.Some? then 1 else 0
    ensures info.name.Some? ==> ps[0] == Param("dn", enc(info.name.value))
  {
    match info.name
    case Some(n) => [Param("dn", enc(n))]
    case None => []
  }

  /**
   * The `xl` parameter: the canonical decimal numeral of the length, not
   * passed through the encoder. It is digits only and reads back as the length.
   */
  function LengthParams(info: Info): (ps: seq<Param>)
    ensures |ps| == if info.length.Some? then 1 else 0
    ensures info.length.Some? ==> ps[0] == Param("xl", Decimal.FromNat(info.length.value))
    ensures info.length.Some? ==>
      Decimal.AllDigits(ps[0].value) && Decimal.Value(ps[0].value) == info.length.value
  {
    match info.length
    case Some(l) => Decimal.ValueOfFromNat(l); [Param("xl", Decimal.FromNat(l))]
    case None => []
  }

  function TrackerParams(urls: seq<string>, enc: string -> string): seq<Param> {
    seq(|urls|, k requires 0 <= k < |urls| => Param("tr", enc(urls[k])))
  }

  /** 1 when the name is present, else 0. */
  function NameCount(t: Torrent): nat {
    if t.info.name.Some? then 1 else 0
  }

  /** 1 when the length is present, else 0. */
  function LengthCount(t: Torrent): nat {
    if t.info.length.Some? then 1 else 0
  }

  /** How many `tr` parameters there are: every tier entry, or the one `announce`. */
  function TrackerCount(t: Torrent): nat {
    match t.announceList
    case Some(tiers) => TotalEntries(tiers)
    case None => 1
  }

  /**
   * The parameters of the magnet URI in push order. The contract says where
   * each one sits and what it carries.
   */
  function Params(t: Torrent, enc: string -> string): (ps: seq<Param>)
    ensures |ps| == NameCount(t) + LengthCount(t) + TrackerCount(t)
    ensures t.info.name.Some? ==> ps[0] == Param("dn", enc(t.info.name.value))
    ensures t.info.length.Some? ==>
      var x := ps[NameCount(t)];
      x == Param("xl", Decimal.FromNat(t.info.length.value)) &&
      Decimal.AllDigits(x.value) && Decimal.Value(x.value) == t.info.length.value
    ensures forall k :: NameCount(t) + LengthCount(t) <= k < |ps| ==>
      ps[k] == Param("tr", enc(TrackerUrls(t)[k - NameCount(t) - LengthCount(t)]))
  {
    NameParams(t.info, enc) + LengthParams(t.info) + TrackerParams(TrackerUrls(t), enc)
  }

  /** The magnet URI of a detail: the prefix, the hash, then '&' before the parameters. */
  function MagnetUri(d: MagnetDetail, enc: string -> string): (uri: string)
    ensures |uri| == |UriPrefix| + |d.hash| + 1 + |Join(Params(d.torrent, enc))|
    ensures uri[..|UriPrefix| + |d.hash| + 1] == UriPrefix + d.hash + "&"
  {
    UriPrefix + d.hash + "&" + Join(Params(d.torrent, enc))
  }

  /**
   * The URI is the fixed prefix, the hash exactly as given (not encoded), one
   * '&' (present even when no parameter follows), and the joined parameters.
   */
  lemma UriLayout(d: MagnetDetail, enc: string -> string)
    ensures var uri := MagnetUri(d, enc);
      var n := |UriPrefix| + |d.hash|;
      && n < |uri|
      && uri[..|UriPrefix|] == UriPrefix
      && uri[|UriPrefix|..n] == d.hash
      && uri[n] == '&'
      && uri[n + 1..] == Join(Params(d.torrent, enc))
  {
  }

  /** The leading `xt` parameter the URI carries before the others. */
  function XtParam(hash: string): Param {
    Param("xt", "urn:btih:" + hash)
  }

  predicate NoAmpersandValues(ps: seq<Param>) {
    forall k :: 0 <= k < |ps| ==> '&' !in ps[k].value
  }

  lemma TrackerParamsConcat(a: seq<string>, b: seq<string>, enc: string -> string)
    ensures TrackerParams(a + b, enc) == TrackerParams(a, enc) + TrackerParams(b, enc)
  {
  }

  /**
   * Builds the parameter list the way `as_magnet` does: push `dn`, push `xl`,
   * then one `tr` per entry of every tier, or one for `announce`.
   */
  method CollectParams(t: Torrent, enc: string -> string) returns (ps: seq<Param>)
    ensures ps == Params(t, enc)
  {
    ps := [];
    if t.info.name.Some? {
      ps := ps + [Param("dn", enc(t.info.name.value))];
    }
    if t.info.length.Some? {
      ps := ps + [Param("xl", Decimal.FromNat(t.info.length.value))];
    }
    assert ps == NameParams(t.info, enc) + LengthParams(t.info);
    ps := PushTrackers(ps, t, enc);
  }

  /**
   * The tracker part of `as_magnet`: with a tier list, one `tr` parameter per
   * entry, tier by tier; otherwise one for `announce`.
   */
  method PushTrackers(ps: seq<Param>, t: Torrent, enc: string -> string) returns (ps': seq<Param>)
    ensures ps' == ps + TrackerParams(TrackerUrls(t), enc)
  {
    if t.announceList.Some? {
      var tiers := t.announceList.value;
      ps' := ps;
      var i := 0;
      while i < |tiers|
        invariant 0 <= i <= |tiers|
        invariant ps' == ps + TrackerParams(Flatten(tiers[..i]), enc)
      {
        ps' := PushTier(ps', tiers[i], enc);
        TrackerParamsConcat(Flatten(tiers[..i]), tiers[i], enc);
        assert tiers[..i + 1][..i] == tiers[..i];
        i := i + 1;
      }
      assert tiers[..i] == tiers;
    } else {
      ps' := ps + [Param("tr", enc(t.announce))];
    }
  }

  /** The inner loop of `as_magnet`: one `tr` parameter per entry of a tier, in order. */
  method PushTier(ps: seq<Param>, node: seq<string>, enc: string -> string) returns (ps': seq<Param>)
    ensures ps' == ps + TrackerParams(node, enc)
  {
    ps' := ps;
    var j := 0;
    while j < |node|
      invariant 0 <= j <= |node|
      invariant ps' == ps + TrackerParams(node[..j], enc)
    {
      TrackerParamsConcat(node[..j], [node[j]], enc);
      assert node[..j + 1] == node[..j] + [node[j]];
      ps' := ps' + [Param("tr", enc(node[j]))];
      j := j + 1;
    }
    assert node[..j] == node;
  }

  /** `as_magnet`: collect the parameters, join them, and prefix the hash. */
  method AsMagnet(d: MagnetDetail, enc: string -> string) returns (uri: string)
    ensures uri == MagnetUri(d, enc)
  {
    var ps := CollectParams(d.torrent, enc);
    var paramsString := JoinParams(ps);
    uri := UriPrefix + d.hash + "&" + paramsString;
  }

  /**
   * The keys come as all `dn`s, then all `xl`s, then all `tr`s: `dn` once
   * exactly when there is a name, `xl` once exactly when there is a length,
   * and one `tr` per tracker entry (or one for `announce`).
   */
  lemma ParamKeys(t: Torrent, enc: string -> string)
    ensures Keys(Params(t, enc)) ==
      Repeat("dn", NameCount(t)) + Repeat("xl", LengthCount(t)) + Repeat("tr", TrackerCount(t))
  {
    var ps := Params(t, enc);
    var expected := Repeat("dn", NameCount(t)) + Repeat("xl", LengthCount(t)) + Repeat("tr", TrackerCount(t));
    forall k | 0 <= k < |ps|
      ensures Keys(ps)[k] == expected[k]
    {
      if k < NameCount(t) {
        assert ps[k] == ps[0];
      } else if k < NameCount(t) + LengthCount(t) {
        assert ps[k] == ps[NameCount(t)];
      }
    }
  }

  /** With a tier list, `announce` has no influence on the parameters. */
  lemma TierListHidesAnnounce(t: Torrent, other: string, enc: string -> string)
    requires t.announceList.Some?
    ensures Params(t.(announce := other), enc) == Params(t, enc)
  {
  }

  /**
   * With a tier list, entry `j` of tier `i` becomes the `tr` parameter right
   * after the `dn`/`xl` parameters and the parameters of all entries before it.
   */
  lemma TierEntryParam(t: Torrent, enc: string -> string, i: nat, j: nat)
    requires t.announceList.Some?
    requires i < |t.announceList.value| && j < |t.announceList.value[i]|
    ensures var k := NameCount(t) + LengthCount(t) + TotalEntries(t.announceList.value[..i]) + j;
      k < |Params(t, enc)| && Params(t, enc)[k] == Param("tr", enc(t.announceList.value[i][j]))
  {
    FlattenIndex(t.announceList.value, i, j);
  }

  /** Without a tier list, the only `tr` parameter is `announce`, and it comes last. */
  lemma AnnounceFallback(t: Torrent, enc: string -> string)
    requires t.announceList.None?
    ensures Params(t, enc)[NameCount(t) + LengthCount(t)..] == [Param("tr", enc(t.announce))]
  {
  }

  /**
   * The URI is `magnet:?` followed by the query that joins `xt` and the
   * parameters; with no parameters a lone '&' trails the `xt` parameter.
   */
  lemma UriAsQuery(d: MagnetDetail, enc: string -> string)
    ensures var ps := Params(d.torrent, enc);
      MagnetUri(d, enc) ==
        if |ps| == 0 then "magnet:?" + Render(XtParam(d.hash)) + "&"
        else "magnet:?" + Join([XtParam(d.hash)] + ps)
  {
    HeadIsXtParam(d.hash, Params(d.torrent, enc));
  }

  /** `magnet:?` followed by the rendered `xt` parameter is the URI prefix and the hash. */
  lemma XtHead(hash: string)
    ensures "magnet:?" + Render(XtParam(hash)) == UriPrefix + hash
  {
    assert Render(XtParam(hash)) == "xt" + "=" + ("urn:btih:" + hash);
    Regroup5("magnet:?", "xt", "=", "urn:btih:", hash);
    assert "magnet:?" + "xt" + "=" + "urn:btih:" == UriPrefix;
  }

  lemma HeadIsXtParam(hash: string, ps: seq<Param>)
    ensures UriPrefix + hash + "&" + Join(ps) ==
      if |ps| == 0 then "magnet:?" + Render(XtParam(hash)) + "&"
      else "magnet:?" + Join([XtParam(hash)] + ps)
  {
    var xt := Render(XtParam(hash));
    XtHead(hash);
    var q := Join(ps);
    if |ps| > 0 {
      JoinConcat([XtParam(hash)], ps);
      assert Join([XtParam(hash)]) == xt;
      Regroup("magnet:?", xt, "&", q);
      Assoc("magnet:?" + xt, "&", q);
    } else {
      assert q == "";
      assert UriPrefix + hash + "&" + q == UriPrefix + hash + "&";
    }
  }

  /** No name, no length and an empty tier list leave a trailing '&'. */
  lemma EmptyParamsTrailingAmpersand(d: MagnetDetail, enc: string -> string)
    requires d.torrent.info.name.None? && d.torrent.info.length.None?
    requires d.torrent.announceList.Some? && TotalEntries(d.torrent.announceList.value) == 0
    ensures MagnetUri(d, enc) == UriPrefix + d.hash + "&"
  {
    assert |Params(d.torrent, enc)| == 0;
  }

  /** With a name, the URI continues after the hash with `&dn=` and the encoded name. */
  lemma NameComesFirst(d: MagnetDetail, enc: string -> string)
    requires d.torrent.info.name.Some?
    ensures var head := UriPrefix + d.hash + "&dn=" + enc(d.torrent.info.name.value);
      |head| <= |MagnetUri(d, enc)| && MagnetUri(d, enc)[..|head|] == head
  {
    var ps := Params(d.torrent, enc);
    var a := UriPrefix + d.hash;
    var dn := Render(ps[0]);
    JoinStartsWithFirst(ps);
    var rest := Join(ps)[|dn|..];
    assert Join(ps) == dn + rest;
    assert MagnetUri(d, enc) == a + "&" + (dn + rest);
    Assoc(a + "&", dn, rest);
    Assoc(a, "&", dn);
    assert "&" + dn == "&dn=" + enc(d.torrent.info.name.value) by {
      assert "&" + "dn" + "=" == "&dn=";
    }
    Assoc(a, "&dn=", enc(d.torrent.info.name.value));
  }

  /**
   * When neither the hash nor any parameter value contains '&', splitting the
   * query at '&' gives back `xt` and every parameter, rendered, in order.
   * With no parameters the trailing '&' leaves one empty piece after `xt`.
   */
  lemma UriQuerySplits(d: MagnetDetail, enc: string -> string)
    requires '&' !in d.hash
    requires NoAmpersandValues(Params(d.torrent, enc))
    ensures SplitOn(MagnetUri(d, enc)[|"magnet:?"|..], '&') ==
      RenderAll([XtParam(d.hash)] + Params(d.torrent, enc)) + (if |Params(d.torrent, enc)| == 0 then [""] else [])
  {
    var qs := Params(d.torrent, enc);
    if |qs| == 0 {
      QueryWithoutParamsSplits(d, enc);
    } else {
      NonEmptyQuerySplits(d, enc);
    }
  }

  lemma QueryWithoutParamsSplits(d: MagnetDetail, enc: string -> string)
    requires '&' !in d.hash
    requires |Params(d.torrent, enc)| == 0
    ensures SplitOn(MagnetUri(d, enc)[|"magnet:?"|..], '&') == [Render(XtParam(d.hash)), ""]
  {
    var xt := Render(XtParam(d.hash));
    assert MagnetUri(d, enc)[|"magnet:?"|..] == xt + ['&'] + "" by {
      UriAsQuery(d, enc);
    }
    assert '&' !in xt by {
      assert '&' !in "urn:btih:";
      RenderWithoutAmpersand(XtParam(d.hash));
    }
    SplitOnAroundSeparator(xt, "", '&');
    SplitOnWithoutSeparator(xt, '&');
  }

  lemma NonEmptyQuerySplits(d: MagnetDetail, enc: string -> string)
    requires '&' !in d.hash
    requires NoAmpersandValues(Params(d.torrent, enc))
    requires 0 < |Params(d.torrent, enc)|
    ensures SplitOn(MagnetUri(d, enc)[|"magnet:?"|..], '&') == RenderAll([XtParam(d.hash)] + Params(d.torrent, enc))
  {
    var qs := Params(d.torrent, enc);
    var ps := [XtParam(d.hash)] + qs;
    assert MagnetUri(d, enc)[|"magnet:?"|..] == Join(ps) by {
      UriAsQuery(d, enc);
    }
    assert PlainKeys(ps) && NoAmpersandValues(ps) by {
      ParamsHavePlainKeys(d.torrent, enc);
      assert '&' !in "urn:btih:";
    }
    RendersWithoutAmpersand(ps);
    SplitJoin(ps);
  }

  /** Every key is one of the four the URI uses. */
  predicate PlainKeys(ps: seq<Param>) {
    forall m :: 0 <= m < |ps| ==> ps[m].key in ["xt", "dn", "xl", "tr"]
  }

  lemma ParamsHavePlainKeys(t: Torrent, enc: string -> string)
    ensures PlainKeys(Params(t, enc))
  {
    forall m | 0 <= m < |Params(t, enc)| {
      ParamKeyKnown(t, enc, m);
    }
  }

  /** With plain keys and values free of '&', no rendering contains '&'. */
  lemma RendersWithoutAmpersand(ps: seq<Param>)
    requires PlainKeys(ps) && NoAmpersandValues(ps)
    ensures forall k :: 0 <= k < |ps| ==> '&' !in Render(ps[k])
  {
    forall k | 0 <= k < |ps| {
      RenderWithoutAmpersand(ps[k]);
    }
  }

  lemma ParamKeyKnown(t: Torrent, enc: string -> string, m: nat)
    requires m < |Params(t, enc)|
    ensures Params(t, enc)[m].key in ["dn", "xl", "tr"]
  {
    if m < NameCount(t) {
      assert m == 0;
    } else if m < NameCount(t) + LengthCount(t) {
      assert m == NameCount(t);
    }
  }

  lemma RenderWithoutAmpersand(p: Param)
    requires p.key in ["xt", "dn", "xl", "tr"] && '&' !in p.value
    ensures '&' !in Render(p)
  {
  }
}
