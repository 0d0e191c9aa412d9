/** internal/config/config.go: the settings record, environment lookup with a
    fallback, and the parsing of the comma-separated STOCK_LIST. The process
    environment (after any .env file has been merged into it) is a map from
    variable name to value; a name absent from the map is unset. */
module Config {
  import opened Wrappers
  import opened Text

  type Environment = map<string, string>

  datatype Config = Config(
    dbUrl: string,
    fxApiKey: string,
    serverAddr: string,
    certFile: string,
    keyFile: string,
    fxApiBaseUrl: string,
    i3InvestorBaseUrl: string,
    i3InvestorStockProfileUrl: string,
    stockList: seq<string>)

  /** `getEnv`: the value of a variable that is set, even when it is empty, and
      the fallback only when it is unset. */
  function GetEnv(env: Environment, key: string, fallback: string): (r: string)
    ensures key in env ==> r == env[key]
    ensures key !in env ==> r == fallback
  {
    if key in env then env[key] else fallback
  }

  /** The tracked stock codes a STOCK_LIST value denotes: the comma-separated
      pieces, trimmed, with the empty ones dropped, in input order. */
  function StockCodes(value: string): seq<string>
  {
    if value == [] then [] else NonEmptyTrimmed(Split(value, ','))
  }

  function NonEmptyTrimmed(pieces: seq<string>): seq<string>
  {
    if pieces == [] then []
    else
      var code := TrimSpace(pieces[0]);
      (if code != [] then [code] else []) + NonEmptyTrimmed(pieces[1..])
  }

  /** A code `Read` can put in the stock list. */
  predicate WellFormedCode(code: string)
  {
    code != [] && Lacks(code, ',') && Trimmed(code)
  }

  /** The loop of `Read` that splits STOCK_LIST on commas and keeps each
      non-empty trimmed piece. */
  method ParseStockList(value: string) returns (codes: seq<string>)
    ensures codes == StockCodes(value)
  {
    codes := [];
    if value != [] {
      var raw := Split(value, ',');
      var i := 0;
      while i < |raw|
        invariant 0 <= i <= |raw|
        invariant codes + NonEmptyTrimmed(raw[i..]) == NonEmptyTrimmed(raw)
      {
        var trimmed := TrimSpace(raw[i]);
        NonEmptyTrimmedStep(raw, i);
        if trimmed != [] {
          AppendAssoc(codes, [trimmed], NonEmptyTrimmed(raw[i + 1..]));
          codes := codes + [trimmed];
        } else {
          assert [] + NonEmptyTrimmed(raw[i + 1..]) == NonEmptyTrimmed(raw[i + 1..]);
        }
        i := i + 1;
      }
    }
  }

  lemma NonEmptyTrimmedStep(raw: seq<string>, i: nat)
    requires i < |raw|
    ensures NonEmptyTrimmed(raw[i..]) ==
      (if TrimSpace(raw[i]) != [] then [TrimSpace(raw[i])] else []) + NonEmptyTrimmed(raw[i + 1..])
  {
    assert raw[i..][0] == raw[i];
    assert raw[i..][1..] == raw[i + 1..];
  }

  /** Every code in the stock list is non-empty, free of commas and trimmed. */
  lemma StockCodesWellFormed(value: string)
    ensures forall j :: 0 <= j < |StockCodes(value)| ==> WellFormedCode(StockCodes(value)[j])
  {
    if value != [] {
      SplitPiecesLackSep(value, ',');
      NonEmptyTrimmedWellFormed(Split(value, ','));
    }
  }

  lemma {:induction false} NonEmptyTrimmedWellFormed(pieces: seq<string>)
    requires forall j :: 0 <= j < |pieces| ==> Lacks(pieces[j], ',')
    ensures forall j :: 0 <= j < |NonEmptyTrimmed(pieces)| ==> WellFormedCode(NonEmptyTrimmed(pieces)[j])
    decreases |pieces|
  {
    if pieces != [] {
      var code := TrimSpace(pieces[0]);
      NonEmptyTrimmedWellFormed(pieces[1..]);
      TrimSpaceKeepsText(pieces[0]);
      assert Lacks(code, ',');
      if code != [] {
        ConsIndex(code, NonEmptyTrimmed(pieces[1..]));
      }
    }
  }

  /** `Read`: every setting comes from `GetEnv` with its default, so an unset
      variable gives the default; FXAPIKey is never read and stays empty; the
      returned error is always nil (missing DB_URL or FX_API_BASE_URL only
      produce log warnings). */
  method Read(env: Environment) returns (cfg: Config, err: Option<string>)
    ensures err == None
    ensures cfg.stockList == StockCodes(GetEnv(env, "STOCK_LIST", ""))
    ensures cfg.dbUrl == GetEnv(env, "DB_URL", "")
    ensures cfg.fxApiKey == ""
    ensures cfg.serverAddr == GetEnv(env, "SERVER_ADDR", ":8443")
    ensures cfg.certFile == GetEnv(env, "CERT_FILE", "./certs/cert.pem")
    ensures cfg.keyFile == GetEnv(env, "KEY_FILE", "./certs/key.pem")
    ensures cfg.fxApiBaseUrl == GetEnv(env, "FX_API_BASE_URL", "")
    ensures cfg.i3InvestorBaseUrl == GetEnv(env, "I3_INVESTOR_BASE_URL", "")
    ensures cfg.i3InvestorStockProfileUrl == GetEnv(env, "I3_INVESTOR_STOCK_PROFILE_URL", "")
    ensures "SERVER_ADDR" !in env ==> cfg.serverAddr == ":8443"
    ensures "CERT_FILE" !in env ==> cfg.certFile == "./certs/cert.pem"
    ensures "KEY_FILE" !in env ==> cfg.keyFile == "./certs/key.pem"
    ensures "DB_URL" !in env ==> cfg.dbUrl == ""
    ensures "FX_API_BASE_URL" !in env ==> cfg.fxApiBaseUrl == ""
    ensures "I3_INVESTOR_BASE_URL" !in env ==> cfg.i3InvestorBaseUrl == ""
    ensures "I3_INVESTOR_STOCK_PROFILE_URL" !in env ==> cfg.i3InvestorStockProfileUrl == ""
    ensures "STOCK_LIST" !in env ==> cfg.stockList == []
  {
    var stockList := ParseStockList(GetEnv(env, "STOCK_LIST", ""));
    cfg := Config(
      dbUrl := GetEnv(env, "DB_URL", ""),
      fxApiKey := "",
      serverAddr := GetEnv(env, "SERVER_ADDR", ":8443"),
      certFile := GetEnv(env, "CERT_FILE", "./certs/cert.pem"),
      keyFile := GetEnv(env, "KEY_FILE", "./certs/key.pem"),
      fxApiBaseUrl := GetEnv(env, "FX_API_BASE_URL", ""),
      i3InvestorBaseUrl := GetEnv(env, "I3_INVESTOR_BASE_URL", ""),
      i3InvestorStockProfileUrl := GetEnv(env, "I3_INVESTOR_STOCK_PROFILE_URL", ""),
      stockList := stockList);
    err := None;
  }

  /** Input order is kept: each piece contributes its trimmed self, and the list
      of a concatenation of pieces is the concatenation of their lists. */
  lemma {:induction false} NonEmptyTrimmedAppend(a: seq<string>, b: seq<string>)
    ensures NonEmptyTrimmed(a + b) == NonEmptyTrimmed(a) + NonEmptyTrimmed(b)
    decreases |a|
  {
    if a == [] {
      assert a + b == b;
    } else {
      assert (a + b)[0] == a[0];
      assert (a + b)[1..] == a[1..] + b;
      NonEmptyTrimmedAppend(a[1..], b);
    }
  }

  /** Only commas and white space. */
  predicate OnlySeparators(s: string)
  {
    forall i :: 0 <= i < |s| ==> s[i] == ',' || IsSpace(s[i])
  }

  predicate AllPiecesSpace(pieces: seq<string>)
  {
    forall j :: 0 <= j < |pieces| ==> AllSpace(pieces[j])
  }

  lemma {:induction false} EmptyIffAllSpacePieces(pieces: seq<string>)
    ensures NonEmptyTrimmed(pieces) == [] <==> AllPiecesSpace(pieces)
    decreases |pieces|
  {
    if pieces != [] {
      EmptyIffAllSpacePieces(pieces[1..]);
      TrimSpaceEmpty(pieces[0]);
      assert AllPiecesSpace(pieces) <==> AllSpace(pieces[0]) && AllPiecesSpace(pieces[1..]) by {
        assert forall j :: 1 <= j < |pieces| ==> pieces[j] == pieces[1..][j - 1];
      }
    }
  }

  lemma {:induction false} JoinOnlySeparators(pieces: seq<string>)
    requires pieces != []
    requires forall j :: 0 <= j < |pieces| ==> Lacks(pieces[j], ',')
    ensures OnlySeparators(Join(pieces, ',')) <==> AllPiecesSpace(pieces)
    decreases |pieces|
  {
    var first := pieces[0];
    assert OnlySeparators(first) <==> AllSpace(first) by {
      assert Lacks(first, ',');
    }
    if |pieces| > 1 {
      var rest := Join(pieces[1..], ',');
      var s := first + [','] + rest;
      JoinOnlySeparators(pieces[1..]);
      assert AllPiecesSpace(pieces) <==> AllSpace(first) && AllPiecesSpace(pieces[1..]) by {
        assert forall j :: 1 <= j < |pieces| ==> pieces[j] == pieces[1..][j - 1];
      }
      assert OnlySeparators(s) <==> OnlySeparators(first) && OnlySeparators(rest) by {
        assert forall i :: 0 <= i < |first| ==> s[i] == first[i];
        assert forall i :: 0 <= i < |rest| ==> s[|first| + 1 + i] == rest[i];
      }
    }
  }

  /** STOCK_LIST yields no codes exactly when it is unset, empty, or made only of
      commas and white space. */
  lemma EmptyStockList(value: string)
    ensures StockCodes(value) == [] <==> OnlySeparators(value)
  {
    if value != [] {
      var pieces := Split(value, ',');
      SplitPiecesLackSep(value, ',');
      EmptyIffAllSpacePieces(pieces);
      JoinSplit(value, ',');
      JoinOnlySeparators(pieces);
    }
  }
}
