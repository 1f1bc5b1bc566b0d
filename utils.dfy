/**
 * src/utils.rs: the canonical query string, the string that is signed, the
 * header list and the HMAC-SHA256 + base64 signature. The wall clock
 * (`get_timestamp`) is not read here: timestamps are arguments.
 */
module Utils {
  import opened Wrappers
  import opened Strings
  import opened Base64
  import opened Consts

  /** A BTreeMap<String, String>: unique keys, iterated in ascending key order. */
  type Params = map<string, string>

  /** The `k=v` pieces for the keys `ks`, in that order, neither escaped. */
  function Entries(p: Params, ks: seq<string>): (r: seq<string>)
    requires forall k :: k in ks ==> k in p
  {
    seq(|ks|, i requires 0 <= i < |ks| => ks[i] + "=" + p[ks[i]])
  }

  /** `build_query`: every entry once as `k=v`, keys ascending, joined by `&`. */
  function BuildQuery(p: Params): (q: string)
    ensures q == "" <==> |p| == 0
  {
    var es := Entries(p, SortedKeys(p.Keys));
    if |es| > 0 then JoinStartsWithFirst(es, "&"); Join(es, "&")
    else Join(es, "&")
  }

  /** Any ascending listing of the keys gives the query: the order is the map's own. */
  lemma BuildQueryListed(p: Params, ks: seq<string>)
    requires Ascending(ks)
    requires forall k :: k in ks <==> k in p
    ensures BuildQuery(p) == Join(Entries(p, ks), "&")
  {
    SortedKeysUnique(ks, p.Keys);
  }

  /** Rust's u32 and u64: the optional numeric arguments of the endpoints. */
  type u32 = x: nat | x < 0x1_0000_0000
  type u64 = x: nat | x < 0x1_0000_0000_0000_0000

  /** The query of a one-entry map. */
  lemma QueryOfOne(k: string, v: string)
    ensures BuildQuery(map[k := v]) == k + "=" + v
  {
    AscendingFromNeighbours([k]);
    BuildQueryListed(map[k := v], [k]);
  }

  lemma EntriesTwo(p: Params, k1: string, k2: string)
    requires k1 in p && k2 in p
    ensures Entries(p, [k1, k2]) == [k1 + "=" + p[k1], k2 + "=" + p[k2]]
  {
  }

  lemma EntriesThree(p: Params, k1: string, k2: string, k3: string)
    requires k1 in p && k2 in p && k3 in p
    ensures Entries(p, [k1, k2, k3]) == [k1 + "=" + p[k1], k2 + "=" + p[k2], k3 + "=" + p[k3]]
  {
  }

  lemma EntriesFour(p: Params, k1: string, k2: string, k3: string, k4: string)
    requires k1 in p && k2 in p && k3 in p && k4 in p
    ensures Entries(p, [k1, k2, k3, k4])
         == [k1 + "=" + p[k1], k2 + "=" + p[k2], k3 + "=" + p[k3], k4 + "=" + p[k4]]
  {
  }

  /** The query of two entries is theirs in key order, whatever order they were
      inserted in. */
  lemma QueryOfTwo(k1: string, v1: string, k2: string, v2: string)
    requires Below(k1, k2)
    ensures BuildQuery(map[k1 := v1, k2 := v2]) == (k1 + "=" + v1) + "&" + (k2 + "=" + v2)
  {
    BelowIrreflexive(k1);
    var p := map[k1 := v1, k2 := v2];
    AscendingFromNeighbours([k1, k2]);
    BuildQueryListed(p, [k1, k2]);
    EntriesTwo(p, k1, k2);
    JoinTwo(k1 + "=" + v1, k2 + "=" + v2, "&");
  }

  /** The query of three entries is theirs in key order. */
  lemma QueryOfThree(k1: string, v1: string, k2: string, v2: string, k3: string, v3: string)
    requires Below(k1, k2) && Below(k2, k3)
    ensures BuildQuery(map[k1 := v1, k2 := v2, k3 := v3])
         == (k1 + "=" + v1) + "&" + (k2 + "=" + v2) + "&" + (k3 + "=" + v3)
  {
    AscendingThree(k1, k2, k3);
    MapOfThree(k1, v1, k2, v2, k3, v3);
    var p := map[k1 := v1, k2 := v2, k3 := v3];
    BuildQueryListed(p, [k1, k2, k3]);
    EntriesThree(p, k1, k2, k3);
    JoinThree(k1 + "=" + v1, k2 + "=" + v2, k3 + "=" + v3, "&");
  }

  /** The query of four entries is theirs in key order. */
  lemma QueryOfFour(k1: string, v1: string, k2: string, v2: string,
                    k3: string, v3: string, k4: string, v4: string)
    requires Below(k1, k2) && Below(k2, k3) && Below(k3, k4)
    ensures BuildQuery(map[k1 := v1, k2 := v2, k3 := v3, k4 := v4])
         == (k1 + "=" + v1) + "&" + (k2 + "=" + v2) + "&" + (k3 + "=" + v3) + "&" + (k4 + "=" + v4)
  {
    AscendingFour(k1, k2, k3, k4);
    MapOfFour(k1, v1, k2, v2, k3, v3, k4, v4);
    var p := map[k1 := v1, k2 := v2, k3 := v3, k4 := v4];
    BuildQueryListed(p, [k1, k2, k3, k4]);
    EntriesFour(p, k1, k2, k3, k4);
    JoinFour(k1 + "=" + v1, k2 + "=" + v2, k3 + "=" + v3, k4 + "=" + v4, "&");
  }

  // A GET path with its query, regrouped so that each key sits with the
  // separator before it and the `=` after it.

  lemma PathOfOne(path: string, k: string, v: string)
    ensures path + "?" + BuildQuery(map[k := v]) == path + ("?" + k + "=") + v
  {
    QueryOfOne(k, v);
    RegroupOne(path, k, v);
  }

  lemma PathOfTwo(path: string, k1: string, v1: string, k2: string, v2: string)
    requires Below(k1, k2)
    ensures path + "?" + BuildQuery(map[k1 := v1, k2 := v2])
         == path + ("?" + k1 + "=") + v1 + ("&" + k2 + "=") + v2
  {
    QueryOfTwo(k1, v1, k2, v2);
    RegroupTwo(path, k1, v1, k2, v2);
  }

  lemma PathOfThree(path: string, k1: string, v1: string, k2: string, v2: string, k3: string, v3: string)
    requires Below(k1, k2) && Below(k2, k3)
    ensures path + "?" + BuildQuery(map[k1 := v1, k2 := v2, k3 := v3])
         == path + ("?" + k1 + "=") + v1 + ("&" + k2 + "=") + v2 + ("&" + k3 + "=") + v3
  {
    QueryOfThree(k1, v1, k2, v2, k3, v3);
    RegroupThree(path, k1, v1, k2, v2, k3, v3);
  }

  lemma PathOfFour(path: string, k1: string, v1: string, k2: string, v2: string,
                   k3: string, v3: string, k4: string, v4: string)
    requires Below(k1, k2) && Below(k2, k3) && Below(k3, k4)
    ensures path + "?" + BuildQuery(map[k1 := v1, k2 := v2, k3 := v3, k4 := v4])
         == path + ("?" + k1 + "=") + v1 + ("&" + k2 + "=") + v2 + ("&" + k3 + "=") + v3 + ("&" + k4 + "=") + v4
  {
    QueryOfFour(k1, v1, k2, v2, k3, v3, k4, v4);
    RegroupFour(path, k1, v1, k2, v2, k3, v3, k4, v4);
  }

  // The Regroup lemmas only re-associate string concatenation. They are stated on
  // their own so that this step is proved without the query's definition in view.

  lemma RegroupOne(path: string, k: string, v: string)
    ensures path + "?" + (k + "=" + v) == path + ("?" + k + "=") + v
  {
  }

  lemma RegroupTwo(path: string, k1: string, v1: string, k2: string, v2: string)
    ensures path + "?" + ((k1 + "=" + v1) + "&" + (k2 + "=" + v2))
         == path + ("?" + k1 + "=") + v1 + ("&" + k2 + "=") + v2
  {
  }

  lemma RegroupThree(path: string, k1: string, v1: string, k2: string, v2: string, k3: string, v3: string)
    ensures path + "?" + ((k1 + "=" + v1) + "&" + (k2 + "=" + v2) + "&" + (k3 + "=" + v3))
         == path + ("?" + k1 + "=") + v1 + ("&" + k2 + "=") + v2 + ("&" + k3 + "=") + v3
  {
  }

  lemma RegroupFour(path: string, k1: string, v1: string, k2: string, v2: string,
                    k3: string, v3: string, k4: string, v4: string)
    ensures path + "?" + ((k1 + "=" + v1) + "&" + (k2 + "=" + v2) + "&" + (k3 + "=" + v3) + "&" + (k4 + "=" + v4))
         == path + ("?" + k1 + "=") + v1 + ("&" + k2 + "=") + v2 + ("&" + k3 + "=") + v3 + ("&" + k4 + "=") + v4
  {
  }

  /** One more key: its entry joins the query after an `&`, unless it is the first. */
  lemma QueryStep(p: Params, ks: seq<string>, i: nat)
    requires forall k :: k in ks ==> k in p
    requires i < |ks|
    ensures var e := ks[i] + "=" + p[ks[i]];
      Join(Entries(p, ks[..i + 1]), "&")
      == if i == 0 then e else Join(Entries(p, ks[..i]), "&") + "&" + e
  {
    var e := ks[i] + "=" + p[ks[i]];
    assert Entries(p, ks[..i + 1]) == Entries(p, ks[..i]) + [e];
    if i > 0 {
      JoinAppend(Entries(p, ks[..i]), e, "&");
    }
  }

  /** `parse_params_to_str`: "" for an empty map, otherwise "?" followed by the
      entries, written one after another into a growing string. */
  method ParseParamsToStr(params: Params) returns (s: string)
    ensures s == "" <==> |params| == 0
    ensures |params| > 0 ==> s == "?" + BuildQuery(params)
  {
    if |params| == 0 {
      return "";
    }
    s := "?";
    var ks := SortedKeys(params.Keys);
    for i := 0 to |ks|
      invariant s == "?" + Join(Entries(params, ks[..i]), "&")
    {
      ghost var before := Join(Entries(params, ks[..i]), "&");
      var entry := ks[i] + "=" + params[ks[i]];
      QueryStep(params, ks, i);
      if i > 0 {
        s := s + "&";
        AppendRegroup(before, entry);
      }
      s := s + entry;
    }
    assert ks[..|ks|] == ks;
  }

  /** Writing an entry, after an `&` or not, onto "?" + the query so far. */
  lemma AppendRegroup(before: string, entry: string)
    ensures "?" + before + "&" + entry == "?" + (before + "&" + entry)
  {
  }

  // ---------------------------------------------------------------------------
  // Reading a query back
  // ---------------------------------------------------------------------------

  /** A reader for the query format: split on `&`, then each piece on its first `=`. */
  function ParseQuery(q: string): Option<Params>
  {
    if q == "" then Some(map[]) else ParsePairs(Split(q, '&'))
  }

  function ParsePairs(pieces: seq<string>): Option<Params>
    decreases |pieces|
  {
    if |pieces| == 0 then Some(map[])
    else
      match SplitOnce(pieces[0], '=')
      case None => None
      case Some(kv) =>
        match ParsePairs(pieces[1..])
        case None => None
        case Some(m) => Some(m[kv.0 := kv.1])
  }

  lemma {:induction false} ParsePairsEntries(p: Params, ks: seq<string>)
    requires forall k :: k in ks ==> k in p && '=' !in k
    ensures ParsePairs(Entries(p, ks)) == Some(map k | k in ks :: p[k])
    decreases |ks|
  {
    if |ks| > 0 {
      var es := Entries(p, ks);
      assert es[1..] == Entries(p, ks[1..]);
      ParsePairsEntries(p, ks[1..]);
      assert es[0] == ks[0] + ['='] + p[ks[0]];
      SplitOnceAt(ks[0], p[ks[0]], '=');
      var rest := map k | k in ks[1..] :: p[k];
      assert rest[ks[0] := p[ks[0]]] == map k | k in ks :: p[k];
    }
  }

  /** Without `=` or `&` in keys and `&` in values, the query reads back as the map. */
  lemma QueryRoundTrip(p: Params)
    requires forall k :: k in p ==> '=' !in k && '&' !in k && '&' !in p[k]
    ensures ParseQuery(BuildQuery(p)) == Some(p)
  {
    var ks := SortedKeys(p.Keys);
    var es := Entries(p, ks);
    if |p| > 0 {
      forall i | 0 <= i < |es| ensures '&' !in es[i] {
        assert es[i] == ks[i] + "=" + p[ks[i]];
      }
      assert "&" == ['&'];
      SplitJoin(es, '&');
      ParsePairsEntries(p, ks);
      assert (map k | k in ks :: p[k]) == p;
    } else {
      assert p == map[];
    }
  }

  // ---------------------------------------------------------------------------
  // Signing inputs
  // ---------------------------------------------------------------------------

  /** `pre_hash`: the four parts back to back, no separator between them. */
  function PreHash(timestamp: string, httpMethod: string, requestPath: string, body: string): (r: string)
    ensures |r| == |timestamp| + |httpMethod| + |requestPath| + |body|
    ensures r[..|timestamp|] == timestamp
    ensures r[|timestamp|..|timestamp| + |httpMethod|] == httpMethod
    ensures r[|timestamp| + |httpMethod|..|r| - |body|] == requestPath
    ensures r[|r| - |body|..] == body
  {
    timestamp + httpMethod + requestPath + body
  }

  /** `get_header`: five name/value pairs in a fixed order; no name repeats. */
  function GetHeader(apiKey: string, sign: string, timestamp: string, passphrase: string)
    : (r: seq<(string, string)>)
    ensures |r| == 5
    ensures forall i, j :: 0 <= i < j < 5 ==> r[i].0 != r[j].0
    ensures r[0] == ("Content-Type", CONTENT_TYPE)
    ensures r[1].0 == "ACCESS-KEY" && r[2].0 == "ACCESS-SIGN"
    ensures r[3].0 == "ACCESS-TIMESTAMP" && r[4].0 == "ACCESS-PASSPHRASE"
    ensures r[1].1 == apiKey && r[2].1 == sign && r[3].1 == timestamp && r[4].1 == passphrase
  {
    [("Content-Type", CONTENT_TYPE),
     ("ACCESS-KEY", apiKey),
     ("ACCESS-SIGN", sign),
     ("ACCESS-TIMESTAMP", timestamp),
     ("ACCESS-PASSPHRASE", passphrase)]
  }

  /** A SHA-256 digest: 32 bytes. */
  type Digest = s: seq<byte> | |s| == 32 witness seq(32, _ => 0)

  /** HMAC-SHA256 (RFC 2104) keyed by the secret, over the message. Its internals
      are not modelled: every use takes it as this argument. */
  type Mac = (string, string) -> Digest

  /** `sign`: base64 of the HMAC of the pre-hash under the secret. */
  function Sign(mac: Mac, preHash: string, secret: string): (sig: string)
    ensures |sig| == 44 && sig[43] == '='
    ensures forall i :: 0 <= i < 43 ==> InAlphabet(sig[i])
    ensures Decode(sig) == Some(mac(secret, preHash))
  {
    var digest := mac(secret, preHash);
    DigestEncoding(digest);
    Encode(digest)
  }

  /** The base64 text of a 32-byte digest: 43 alphabet characters, one `=`, and
      it decodes back to the digest. */
  lemma DigestEncoding(digest: Digest)
    ensures |Encode(digest)| == 44 && Encode(digest)[43] == '='
    ensures forall i :: 0 <= i < 43 ==> InAlphabet(Encode(digest)[i])
    ensures Decode(Encode(digest)) == Some(digest)
  {
    var s := Encode(digest);
    assert |s| == 44 by {
      assert |digest| == 32;
      assert (32 + 2) / 3 == 11;
    }
    assert PadLength(|digest|) == 1;
    forall i | 0 <= i < 43 ensures InAlphabet(s[i]) {
      EncodeLayout(digest, i);
    }
    EncodeLayout(digest, 43);
    DecodeEncode(digest);
  }
}
