/** The launch-parameter resolver: `parseAppParameters` and the choice of the
    launch string between `location.search` and `location.hash`. */
module Params {
  import opened Js
  import opened Text
  import Uri

  /** The three integration parameters the host sends on first load. */
  datatype AppParams = AppParams(pcEnvironment: Value, pcLangTag: Value, pcConversationId: Value)

  const Initial := AppParams(Null, Null, Null)

  const RecognisedKeys: set<string> := {"pcEnvironment", "pcLangTag", "pcConversationId"}

  /** `decodeURIComponent` threw while a `state` value was decoded; the
      exception leaves `parseAppParameters` and every call nesting it. */
  datatype ParseError = URIError

  /** The parameter a recognised key names. */
  function Get(a: AppParams, key: string): Value
    requires key in RecognisedKeys
  {
    if key == "pcEnvironment" then a.pcEnvironment
    else if key == "pcLangTag" then a.pcLangTag
    else a.pcConversationId
  }

  /** The parameters with the one `key` names set to `v`. */
  function With(a: AppParams, key: string, v: Value): (r: AppParams)
    requires key in RecognisedKeys
    ensures forall k :: k in RecognisedKeys ==> Get(r, k) == if k == key then v else Get(a, k)
  {
    if key == "pcEnvironment" then a.(pcEnvironment := v)
    else if key == "pcLangTag" then a.(pcLangTag := v)
    else a.(pcConversationId := v)
  }

  /** `pair.split('=')[0]` */
  function Key(pair: string): string
  {
    Split(pair, '=')[0]
  }

  /** `pair.split('=')[1]`: the text between the first and the second `=`,
      `undefined` when the pair has no `=`. */
  function PairValue(pair: string): (v: Value)
    ensures v != Null
    ensures v == Undefined <==> '=' !in pair
    ensures v.Str? ==> |v.s| < |pair| && '=' !in v.s
  {
    var parts := Split(pair, '=');
    SinglePiece(pair, '=');
    if |parts| >= 2 then Str(parts[1]) else Undefined
  }

  /** What `parseAppParameters(q)` returns, or the URIError it throws. */
  function Resolve(q: string): Result<AppParams, ParseError>
    decreases |q|, 1, 0
  {
    if |q| == 0 then Ok(Initial) else ApplyPairs(Initial, Split(q, '&'))
  }

  /** The loop of `parseAppParameters` over the remaining pairs, from `acc`. */
  function ApplyPairs(acc: AppParams, pairs: seq<string>): Result<AppParams, ParseError>
    decreases SumLen(pairs), 0, |pairs|
  {
    if pairs == [] then Ok(acc)
    else
      match ApplyPair(acc, pairs[0])
      case Err(e) => Err(e)
      case Ok(next) => ApplyPairs(next, pairs[1..])
  }

  /** One iteration of the loop. A recognised key sets its own parameter; a
      `state` pair replaces every parameter by the resolution of its value
      decoded twice; any other key changes nothing. */
  function ApplyPair(acc: AppParams, pair: string): Result<AppParams, ParseError>
    decreases |pair|, 0, 0
  {
    var key := Key(pair);
    if key == "pcLangTag" then Ok(acc.(pcLangTag := PairValue(pair)))
    else if key == "pcEnvironment" then Ok(acc.(pcEnvironment := PairValue(pair)))
    else if key == "pcConversationId" then Ok(acc.(pcConversationId := PairValue(pair)))
    else if key == "state" then
      match PairValue(pair)
      case Str(v) =>
        (match Uri.Decode(v)
         case None => Err(URIError)
         case Some(once) =>
           match Uri.Decode(once)
           case None => Err(URIError)
           case Some(twice) => Resolve(twice))
      // `decodeURIComponent(undefined)` is the text "undefined", which
      // resolves to the initial parameters (StateWithoutValue)
      case _ => Ok(Initial)
    else Ok(acc)
  }

  /** The text "undefined" is left alone by decoding and names no parameter. */
  lemma StateWithoutValue()
    ensures Uri.Decode("undefined") == Some("undefined")
    ensures Resolve("undefined") == Ok(Initial)
  {
    assert Uri.Decode("undefined") == Some("undefined") by {
      Uri.DecodePlain("undefined");
    }
    assert Resolve("undefined") == Ok(Initial) by {
      ResolveBareWord("undefined");
    }
  }

  /** A query string that is a single word without `=` names no parameter. */
  lemma ResolveBareWord(w: string)
    requires |w| != 0 && '&' !in w && '=' !in w
    requires w !in RecognisedKeys && w != "state"
    ensures Resolve(w) == Ok(Initial)
  {
    NoSeparator(w, '&');
    NoSeparator(w, '=');
    ApplyPairIgnores(Initial, w);
    ApplySingle(Initial, w);
  }

  lemma ApplySingle(acc: AppParams, pair: string)
    ensures ApplyPairs(acc, [pair]) == ApplyPair(acc, pair)
  {
    match ApplyPair(acc, pair)
    case Err(_) =>
    case Ok(_) => assert [pair][1..] == [];
  }

  lemma ApplyPairIgnores(acc: AppParams, pair: string)
    requires Key(pair) !in RecognisedKeys && Key(pair) != "state"
    ensures ApplyPair(acc, pair) == Ok(acc)
  {
  }

  lemma ApplyPairSets(acc: AppParams, pair: string)
    requires Key(pair) in RecognisedKeys
    ensures ApplyPair(acc, pair) == Ok(With(acc, Key(pair), PairValue(pair)))
  {
    if Key(pair) == "pcLangTag" {
      SetsLangTag(acc, pair);
    } else if Key(pair) == "pcEnvironment" {
      SetsEnvironment(acc, pair);
    } else {
      SetsConversationId(acc, pair);
    }
  }

  lemma SetsLangTag(acc: AppParams, pair: string)
    requires Key(pair) == "pcLangTag"
    ensures ApplyPair(acc, pair) == Ok(acc.(pcLangTag := PairValue(pair)))
  {
  }

  lemma SetsEnvironment(acc: AppParams, pair: string)
    requires Key(pair) == "pcEnvironment"
    ensures ApplyPair(acc, pair) == Ok(acc.(pcEnvironment := PairValue(pair)))
  {
  }

  lemma SetsConversationId(acc: AppParams, pair: string)
    requires Key(pair) == "pcConversationId"
    ensures ApplyPair(acc, pair) == Ok(acc.(pcConversationId := PairValue(pair)))
  {
  }

  lemma ApplyPairState(acc: AppParams, pair: string, once: string, twice: string)
    requires Key(pair) == "state" && PairValue(pair).Str?
    requires Uri.Decode(PairValue(pair).s) == Some(once) && Uri.Decode(once) == Some(twice)
    ensures ApplyPair(acc, pair) == Resolve(twice)
  {
  }

  /** `parseAppParameters`: splits the query string on `&`, each pair on `=`,
      and updates the parameters pair by pair. */
  method ParseAppParameters(queryString: string) returns (result: Result<AppParams, ParseError>)
    ensures result == Resolve(queryString)
    decreases |queryString|
  {
    var appParams := Initial;
    if |queryString| != 0 {
      var pairs := Split(queryString, '&');
      for i := 0 to |pairs|
        invariant ApplyPairs(appParams, pairs[i..]) == Resolve(queryString)
      {
        assert pairs[i..][1..] == pairs[i + 1..];
        assert ApplyPairs(appParams, pairs[i..]) == Continue(ApplyPair(appParams, pairs[i]), pairs[i + 1..]);
        var currParam := Split(pairs[i], '=');
        var value := if |currParam| >= 2 then Str(currParam[1]) else Undefined;
        assert currParam[0] == Key(pairs[i]) && value == PairValue(pairs[i]);
        if currParam[0] == "pcLangTag" {
          SetsLangTag(appParams, pairs[i]);
          appParams := appParams.(pcLangTag := value);
        } else if currParam[0] == "pcEnvironment" {
          SetsEnvironment(appParams, pairs[i]);
          appParams := appParams.(pcEnvironment := value);
        } else if currParam[0] == "pcConversationId" {
          SetsConversationId(appParams, pairs[i]);
          appParams := appParams.(pcConversationId := value);
        } else if currParam[0] == "state" {
          if value.Str? {
            var stateValueDecoded := Uri.Decode(value.s);
            if stateValueDecoded.None? {
              return Err(URIError);
            }
            var twiceDecoded := Uri.Decode(stateValueDecoded.value);
            if twiceDecoded.None? {
              return Err(URIError);
            }
            ApplyPairState(appParams, pairs[i], stateValueDecoded.value, twiceDecoded.value);
            var nested := ParseAppParameters(twiceDecoded.value);
            if nested.Err? {
              return nested;
            }
            appParams := nested.value;
          } else {
            StateWithoutValue();
            appParams := Initial;
          }
        }
      }
    }
    return Ok(appParams);
  }

  /** Continues a resolution with further pairs, passing an error through. */
  function Continue(r: Result<AppParams, ParseError>, pairs: seq<string>): Result<AppParams, ParseError>
  {
    match r
    case Err(e) => Err(e)
    case Ok(a) => ApplyPairs(a, pairs)
  }

  /** The empty query string behaves as the single empty pair. */
  lemma ResolveAsPairs(q: string)
    ensures Resolve(q) == ApplyPairs(Initial, Split(q, '&'))
  {
    if |q| == 0 {
      NoSeparator(q, '&');
      NoSeparator(q, '=');
    }
  }

  lemma {:induction false} ApplyPairsAppend(acc: AppParams, first: seq<string>, second: seq<string>)
    ensures ApplyPairs(acc, first + second) == Continue(ApplyPairs(acc, first), second)
    decreases |first|
  {
    if first != [] {
      assert (first + second)[1..] == first[1..] + second;
      match ApplyPair(acc, first[0])
      case Err(e) =>
      case Ok(next) => ApplyPairsAppend(next, first[1..], second);
    } else {
      assert first + second == second;
    }
  }

  /** Appending a pair to the query string applies that pair to the result. */
  lemma ResolveAppend(q: string, pair: string)
    requires '&' !in pair
    ensures Resolve(q + "&" + pair) == Continue(Resolve(q), [pair])
  {
    ResolveAsPairs(q + "&" + pair);
    SplitAppend(q, pair, '&');
    NoSeparator(pair, '&');
    ApplyPairsAppend(Initial, Split(q, '&'), [pair]);
    ResolveAsPairs(q);
  }

  lemma KeyAndValue(key: string, v: string)
    requires '=' !in key && '=' !in v
    ensures Key(key + "=" + v) == key && PairValue(key + "=" + v) == Str(v)
  {
    SplitAppend(key, v, '=');
    NoSeparator(key, '=');
    NoSeparator(v, '=');
  }

  lemma RecognisedPair(key: string, v: string)
    requires key in RecognisedKeys
    requires '&' !in v && '=' !in v
    ensures '&' !in key + "=" + v
    ensures Key(key + "=" + v) == key && PairValue(key + "=" + v) == Str(v)
  {
    assert '=' !in key && '&' !in key;
    KeyAndValue(key, v);
  }

  /** The value is cut at the second `=`: `k=v=rest` gives `v`. */
  lemma PairValueBetween(k: string, v: string, rest: string)
    requires '=' !in k && '=' !in v
    ensures Key(k + "=" + v + "=" + rest) == k
    ensures PairValue(k + "=" + v + "=" + rest) == Str(v)
  {
    assert k + "=" + v + "=" + rest == k + ['='] + (v + ['='] + rest);
    SplitAppend(k, v + ['='] + rest, '=');
    SplitAppend(v, rest, '=');
    NoSeparator(k, '=');
    NoSeparator(v, '=');
  }

  lemma RecognisedKeyPlain(key: string)
    requires key in RecognisedKeys
    ensures '=' !in key && '&' !in key
  {
    if key == "pcEnvironment" {
    } else if key == "pcLangTag" {
    } else {
      assert key == "pcConversationId";
    }
  }

  /** A recognised key without `=` sets its parameter to `undefined`. */
  lemma BareKey(key: string)
    requires key in RecognisedKeys
    ensures Resolve(key) == Ok(With(Initial, key, Undefined))
  {
    RecognisedKeyPlain(key);
    assert Key(key) == key && PairValue(key) == Undefined by {
      NoSeparator(key, '=');
    }
    assert Resolve(key) == ApplyPairs(Initial, [key]) by {
      NoSeparator(key, '&');
      ResolveAsPairs(key);
    }
    ApplySingle(Initial, key);
    ApplyPairSets(Initial, key);
  }

  lemma ContinueSets(r: Result<AppParams, ParseError>, pair: string)
    requires Key(pair) in RecognisedKeys
    ensures Continue(r, [pair]) ==
      match r
      case Err(e) => Err(e)
      case Ok(a) => Ok(With(a, Key(pair), PairValue(pair)))
  {
    if r.Ok? {
      ApplySingle(r.value, pair);
      ApplyPairSets(r.value, pair);
    }
  }

  /** A pair with a recognised key sets only that key's parameter, to the
      pair's value, whatever came before it: the last occurrence of a key wins. */
  lemma LastOccurrenceWins(q: string, key: string, pair: string)
    requires key in RecognisedKeys
    requires '&' !in pair && Key(pair) == key
    ensures Resolve(q + "&" + pair) ==
      match Resolve(q)
      case Err(e) => Err(e)
      case Ok(a) => Ok(With(a, key, PairValue(pair)))
  {
    assert Resolve(q + "&" + pair) == Continue(Resolve(q), [pair]) by {
      ResolveAppend(q, pair);
    }
    ContinueSets(Resolve(q), pair);
  }

  /** A pair whose key is neither recognised nor `state` leaves the parameters unchanged. */
  lemma UnknownKeyIgnored(q: string, pair: string)
    requires '&' !in pair
    requires Key(pair) !in RecognisedKeys && Key(pair) != "state"
    ensures Resolve(q + "&" + pair) == Resolve(q)
  {
    ResolveAppend(q, pair);
    match Resolve(q)
    case Err(_) =>
    case Ok(a) =>
      ApplySingle(a, pair);
      ApplyPairIgnores(a, pair);
  }

  /** The parameter string `p` carried through a `state` value encoded twice. */
  function StatePair(p: string): string
    requires Uri.IsAscii(p)
  {
    "state=" + Uri.Encode(Uri.Encode(p))
  }

  lemma EncodedTwiceIsPlain(p: string)
    requires Uri.IsAscii(p)
    ensures '&' !in Uri.Encode(Uri.Encode(p)) && '=' !in Uri.Encode(Uri.Encode(p))
  {
    Uri.EncodedHasNoSeparator(Uri.Encode(p));
  }

  lemma StateKeyAndValue(e: string)
    requires '=' !in e && '&' !in e
    ensures '&' !in "state=" + e
    ensures Key("state=" + e) == "state" && PairValue("state=" + e) == Str(e)
  {
    assert "state=" + e == "state" + "=" + e;
    KeyAndValue("state", e);
  }

  lemma StatePairParts(acc: AppParams, p: string)
    requires Uri.IsAscii(p)
    ensures '&' !in StatePair(p)
    ensures ApplyPairs(acc, [StatePair(p)]) == Resolve(p)
  {
    EncodedTwiceIsPlain(p);
    StateKeyAndValue(Uri.Encode(Uri.Encode(p)));
    Uri.DecodeEncode(p);
    Uri.DecodeEncode(Uri.Encode(p));
    ApplyPairState(acc, StatePair(p), Uri.Encode(p), p);
    ApplySingle(acc, StatePair(p));
  }

  /** A `state` pair discards every parameter set before it and yields the
      parameters of the string it carries. */
  lemma StateReplacesEarlierKeys(q: string, p: string)
    requires Uri.IsAscii(p)
    ensures Resolve(q + "&" + StatePair(p)) == Continue(Resolve(q), [StatePair(p)])
    ensures Resolve(q).Ok? ==> Resolve(q + "&" + StatePair(p)) == Resolve(p)
  {
    StatePairParts(Initial, p);
    ResolveAppend(q, StatePair(p));
    if Resolve(q).Ok? {
      StatePairParts(Resolve(q).value, p);
    }
  }

  /** Round trip across the authentication redirect: resolving the `state`
      pair that carries `p` encoded twice gives what resolving `p` gives. */
  lemma StateRoundTrip(p: string)
    requires Uri.IsAscii(p)
    ensures Resolve(StatePair(p)) == Resolve(p)
  {
    StatePairParts(Initial, p);
    NoSeparator(StatePair(p), '&');
    ResolveAsPairs(StatePair(p));
  }

  /** Recognised keys after a `state` pair still overwrite what it carried. */
  lemma KeysAfterStateOverride(p: string, key: string, pair: string)
    requires Uri.IsAscii(p)
    requires key in RecognisedKeys
    requires '&' !in pair && Key(pair) == key
    ensures Resolve(StatePair(p) + "&" + pair) ==
      match Resolve(p)
      case Err(e) => Err(e)
      case Ok(a) => Ok(With(a, key, PairValue(pair)))
  {
    StateRoundTrip(p);
    LastOccurrenceWins(StatePair(p), key, pair);
  }

  /** The value of the last pair with `key`, or `default` when there is none. */
  function LastValue(pairs: seq<string>, key: string, default: Value): Value
  {
    if pairs == [] then default
    else if Key(pairs[|pairs| - 1]) == key then PairValue(pairs[|pairs| - 1])
    else LastValue(pairs[..|pairs| - 1], key, default)
  }

  lemma {:induction false} LastValueFirst(pairs: seq<string>, key: string, default: Value)
    requires pairs != []
    ensures LastValue(pairs, key, default) ==
      LastValue(pairs[1..], key, if Key(pairs[0]) == key then PairValue(pairs[0]) else default)
    decreases |pairs|
  {
    if |pairs| > 1 {
      var init := pairs[..|pairs| - 1];
      assert init[1..] == pairs[1..][..|pairs[1..]| - 1];
      assert pairs[1..][|pairs[1..]| - 1] == pairs[|pairs| - 1];
      if Key(pairs[|pairs| - 1]) != key {
        LastValueFirst(init, key, default);
      }
    }
  }

  predicate StateFree(pairs: seq<string>)
  {
    forall i :: 0 <= i < |pairs| ==> Key(pairs[i]) != "state"
  }

  lemma {:induction false} ApplyStateFree(acc: AppParams, pairs: seq<string>)
    requires StateFree(pairs)
    ensures ApplyPairs(acc, pairs) == Ok(AppParams(
      LastValue(pairs, "pcEnvironment", acc.pcEnvironment),
      LastValue(pairs, "pcLangTag", acc.pcLangTag),
      LastValue(pairs, "pcConversationId", acc.pcConversationId)))
    decreases |pairs|
  {
    if pairs != [] {
      var next := ApplyPair(acc, pairs[0]).value;
      assert StateFree(pairs[1..]) by {
        assert forall i :: 0 <= i < |pairs[1..]| ==> pairs[1..][i] == pairs[i + 1];
      }
      ApplyStateFree(next, pairs[1..]);
      LastValueFirst(pairs, "pcEnvironment", acc.pcEnvironment);
      LastValueFirst(pairs, "pcLangTag", acc.pcLangTag);
      LastValueFirst(pairs, "pcConversationId", acc.pcConversationId);
    }
  }

  /** Without a `state` pair, each parameter is the value of the last pair
      naming it, and `null` when no pair names it; the empty query string
      yields all three `null`. */
  lemma ResolveWithoutState(q: string)
    requires StateFree(Split(q, '&'))
    ensures Resolve(q) == Ok(AppParams(
      LastValue(Split(q, '&'), "pcEnvironment", Null),
      LastValue(Split(q, '&'), "pcLangTag", Null),
      LastValue(Split(q, '&'), "pcConversationId", Null)))
    ensures q == "" ==> Resolve(q) == Ok(Initial)
  {
    ResolveAsPairs(q);
    ApplyStateFree(Initial, Split(q, '&'));
  }

  /** A query string of one recognised pair sets that parameter alone. */
  lemma SinglePair(key: string, v: string)
    requires key in RecognisedKeys
    requires '&' !in v && '=' !in v
    ensures Resolve(key + "=" + v) == Ok(With(Initial, key, Str(v)))
  {
    var pair := key + "=" + v;
    RecognisedPair(key, v);
    NoSeparator(pair, '&');
    ResolveAsPairs(pair);
    ApplySingle(Initial, pair);
    ApplyPairSets(Initial, pair);
  }

  /** The query string the host sends on first load, such as
      `pcConversationId=abc&pcEnvironment=mypurecloud.com`: the language tag
      stays `null`. */
  lemma FirstLoadParameters(id: string, env: string)
    requires '&' !in id && '=' !in id && '&' !in env && '=' !in env
    ensures Resolve("pcConversationId=" + id + "&pcEnvironment=" + env) == Ok(AppParams(Str(env), Null, Str(id)))
  {
    var first := "pcConversationId" + "=" + id;
    var second := "pcEnvironment" + "=" + env;
    assert "pcConversationId=" + id + "&pcEnvironment=" + env == first + "&" + second;
    assert Resolve(first + "&" + second) == Ok(AppParams(Str(env), Null, Str(id))) by {
      assert Resolve(first) == Ok(AppParams(Null, Null, Str(id))) by {
        SinglePair("pcConversationId", id);
      }
      assert Key(second) == "pcEnvironment" && PairValue(second) == Str(env) && '&' !in second by {
        RecognisedPair("pcEnvironment", env);
      }
      LastOccurrenceWins(first, "pcEnvironment", second);
    }
  }

  /** `location.search` without its `?` when it is not empty, else
      `location.hash` without its `#` when that is not empty, else "". */
  function LaunchString(search: string, hash: string): string
  {
    if |search| != 0 then search[1..]
    else if |hash| != 0 then hash[1..]
    else ""
  }

  /** On first load the query string is resolved, whatever the fragment. */
  lemma FirstLoad(q: string, hash: string)
    ensures LaunchString("?" + q, hash) == q
  {
  }

  /** Without a query string the fragment after its `#` is resolved. */
  lemma FragmentLaunch(fragment: string)
    ensures LaunchString("", "#" + fragment) == fragment
  {
    assert ("#" + fragment)[1..] == fragment;
  }

  /** After the authentication redirect the page has no query string and a
      fragment ending in the `state` pair; the parameters of the original
      query string `p` are recovered, whatever precedes the pair. */
  lemma ResumeAfterRedirect(before: string, p: string)
    requires Uri.IsAscii(p)
    requires Resolve(before).Ok?
    ensures Resolve(LaunchString("", "#" + before + "&" + StatePair(p))) == Resolve(p)
  {
    var fragment := before + "&" + StatePair(p);
    assert "#" + before + "&" + StatePair(p) == "#" + fragment;
    FragmentLaunch(fragment);
    assert Resolve(fragment) == Resolve(p) by {
      StateReplacesEarlierKeys(before, p);
    }
  }
}
