/**
 * The string handling of the Firebase client on the ESP32: validation and
 * normalisation of the host into the fixed 64-byte `host_` array, the copy of
 * the sign-in token into the 1024-byte `idToken_` array, and the URLs that
 * `Send` and `Read` build. The HTTP request itself, the JSON parser and the
 * logging are outside the model: their outcomes are parameters.
 */
module Firebase {
  import opened Wrappers

  /** A NUL-terminated C string, as the characters before its terminator. */
  type CString = s: seq<char> | '\0' !in s

  const ESP_OK: int := 0
  const ESP_FAIL: int := -1
  const HttpOkStatus: int := 200

  /** sizeof(host_) and sizeof(idToken_) */
  const HostSize: nat := 64
  const TokenSize: nat := 1024
  /** The largest API key and host the constructor accepts. */
  const MaxArgLen: nat := 64
  /** sizeof(url) of the sign-up URL buffer. */
  const SignUpUrlSize: nat := 256
  /** size_t is 32 bits wide on the ESP32; its values wrap modulo this. */
  const SizeTLimit: nat := 0x1_0000_0000

  const Https: CString := "https://"
  const SignUpBase: CString :=
    Https + "identity" + "toolkit." + "googleap" + "is.com/v" + "1/accoun" + "ts:signU" + "p?key="
  const JsonAuth: CString := ".json?auth="

  function Min(a: nat, b: nat): nat { if a < b then a else b }

  function Nuls(n: nat): (z: seq<char>)
    ensures |z| == n && forall i :: 0 <= i < n ==> z[i] == '\0'
  {
    seq(n, _ => '\0')
  }

  // ---------------------------------------------------------------------------
  // C string primitives

  /** strlen/strcpy reading: the characters before the first NUL. */
  function CStr(a: seq<char>): (r: CString)
    ensures |r| <= |a| && r == a[..|r|]
    ensures |r| < |a| ==> a[|r|] == '\0'
  {
    if a == [] || a[0] == '\0' then [] else [a[0]] + CStr(a[1..])
  }

  /** A C string followed by a terminator reads back as itself. */
  lemma {:induction false} CStrOfTerminated(s: CString, rest: seq<char>)
    requires rest != [] && rest[0] == '\0'
    ensures CStr(s + rest) == s
  {
    if s != [] {
      assert s[0] != '\0';
      assert (s + rest)[1..] == s[1..] + rest;
      CStrOfTerminated(s[1..], rest);
    } else {
      assert (s + rest)[0] == '\0';
    }
  }

  /** strncpy(dst, src, n) on the first n cells: src up to n characters, then NUL padding. */
  function StrNCpy(src: CString, n: nat): (r: seq<char>)
    ensures |r| == n
    ensures forall i :: 0 <= i < n ==> r[i] == (if i < |src| then src[i] else '\0')
  {
    src[..Min(|src|, n)] + Nuls(n - Min(|src|, n))
  }

  /** snprintf(buf, cap, "%s", s): the output is cut to cap - 1 characters. */
  function Snprintf(cap: nat, s: CString): (r: CString)
    requires cap >= 1
    ensures |r| < cap && |r| <= |s| && r == s[..|r|]
    ensures |s| < cap ==> r == s
  {
    s[..Min(|s|, cap - 1)]
  }

  // ---------------------------------------------------------------------------
  // Host normalisation

  /** strncmp(host, "https://", 8) == 0 exactly when the host starts with the prefix. */
  function CleanHost(host: CString): (r: CString)
    ensures |host| >= |Https| && host[..|Https|] == Https ==> host == Https + r
    ensures !(|host| >= |Https| && host[..|Https|] == Https) ==> r == host
  {
    if |host| >= |Https| && host[..|Https|] == Https then host[|Https|..] else host
  }

  /** What strncpy leaves readable in host_: at most sizeof(host_) - 2 characters. */
  function Copied(host: CString): (r: CString)
    ensures |r| <= HostSize - 2 && |r| <= |CleanHost(host)| && r == CleanHost(host)[..|r|]
    ensures |CleanHost(host)| <= HostSize - 2 ==> r == CleanHost(host)
  {
    var c := CleanHost(host);
    c[..Min(|c|, HostSize - 2)]
  }

  /**
   * The host with a '/' appended when it does not already end in one; an
   * empty cleaned host becomes "/".
   */
  function Normalized(host: CString): (n: CString)
    ensures 1 <= |n| <= HostSize - 1 && n[|n| - 1] == '/'
    ensures n == Copied(host) || n == Copied(host) + "/"
    ensures Copied(host) != [] && Copied(host)[|Copied(host)| - 1] == '/' ==> n == Copied(host)
  {
    var c := Copied(host);
    if c == [] || c[|c| - 1] != '/' then c + "/" else c
  }

  /** The 64 bytes of host_ after the constructor has processed the host. */
  function HostBuffer(host: CString): (b: seq<char>)
    ensures |b| == HostSize && b[HostSize - 1] == '\0'
    ensures b[..|Normalized(host)|] == Normalized(host)
    ensures forall i :: |Normalized(host)| <= i < HostSize ==> b[i] == '\0'
  {
    var n := Normalized(host);
    n + Nuls(HostSize - |n|)
  }

  /** The normalised host ends in '/', is at most 63 characters and is NUL-terminated inside host_. */
  lemma NormalizedShape(host: CString)
    ensures var n := Normalized(host);
      && 1 <= |n| <= HostSize - 1 && n[|n| - 1] == '/'
      && |HostBuffer(host)| == HostSize && HostBuffer(host)[HostSize - 1] == '\0'
      && CStr(HostBuffer(host)) == n
  {
    var n := Normalized(host);
    CStrOfTerminated(n, Nuls(HostSize - |n|));
  }

  /** The prefix is removed only when present, and otherwise the host is kept as given. */
  lemma PrefixStripped(host: CString, rest: CString)
    ensures CleanHost(Https + rest) == rest
    ensures (|host| < |Https| || host[..|Https|] != Https) ==> CleanHost(host) == host
  {
    assert (Https + rest)[..|Https|] == Https;
  }

  /** A host without the prefix, already ending in '/' and at most 62 characters long is not changed. */
  lemma WellFormedHostUnchanged(host: CString)
    requires |host| < |Https| || host[..|Https|] != Https
    requires 1 <= |host| <= HostSize - 2 && host[|host| - 1] == '/'
    ensures Normalized(host) == host
  {
  }

  /** Long hosts are cut at 62 characters before the '/' is considered. */
  lemma LongHostTruncated(host: CString)
    requires |CleanHost(host)| > HostSize - 2
    ensures Copied(host) == CleanHost(host)[..HostSize - 2]
    ensures Normalized(host)[..HostSize - 2] == CleanHost(host)[..HostSize - 2]
  {
  }

  /**
   * The trailing-slash test as written reads host_[len - 1] with len a size_t:
   * for len == 0 the index wraps to SIZE_MAX. None stands for that read
   * outside the 64-byte array.
   */
  function NormalizeAsWritten(c: CString): (r: Option<CString>)
    requires |c| <= HostSize - 2
    ensures r.None? <==> c == []
    ensures r.Some? ==> (r.value == c || r.value == c + "/") && 1 <= |r.value| && r.value[|r.value| - 1] == '/'
    ensures r.Some? && c[|c| - 1] == '/' ==> r.value == c
  {
    var index := (|c| - 1) % SizeTLimit;
    if index >= HostSize then None
    else if c[index] != '/' then Some(c + "/")
    else Some(c)
  }

  /** The as-written test stays in bounds exactly when the cleaned host is not empty, and then agrees with Normalized. */
  lemma AsWrittenReadsOutOfBounds(host: CString)
    ensures NormalizeAsWritten(Copied(host)).None? <==> CleanHost(host) == []
    ensures NormalizeAsWritten(Copied(host)).Some? ==> NormalizeAsWritten(Copied(host)).value == Normalized(host)
    ensures NormalizeAsWritten(Copied(Https)) == None && NormalizeAsWritten(Copied("")) == None
  {
    var c := Copied(host);
    assert |c| == Min(|CleanHost(host)|, HostSize - 2);
    assert CleanHost(Https) == [] by { assert Https[..|Https|] == Https; }
    assert Copied(Https) == [] && Copied("") == [];
  }

  /** strlen of a buffer holding c and then NULs is |c|. */
  lemma TerminatedLength(c: CString, buf: seq<char>)
    requires |c| < HostSize && buf == c + Nuls(HostSize - |c|)
    ensures |CStr(buf)| == |c|
  {
    CStrOfTerminated(c, Nuls(HostSize - |c|));
  }

  /** Writing '/' and NUL just after a terminated copy gives the copy with '/' appended, then NULs. */
  lemma SlashAppended(c: CString)
    requires |c| <= HostSize - 2
    ensures (c + Nuls(HostSize - |c|))[|c| := '/'][|c| + 1 := '\0'] == (c + "/") + Nuls(HostSize - |c + "/"|)
  {
  }

  // ---------------------------------------------------------------------------
  // URLs

  /** A buffer holding c and then NULs reads back as c. */
  lemma CopiedReadsBack(c: CString, buf: seq<char>)
    requires |c| < |buf| && forall i :: 0 <= i < |buf| ==> buf[i] == if i < |c| then c[i] else '\0'
    ensures CStr(buf) == c
  {
    assert buf == c + Nuls(|buf| - |c|);
    CStrOfTerminated(c, Nuls(|buf| - |c|));
  }

  /** The sign-up URL for any accepted key fits the 256-byte buffer untruncated. */
  lemma SignUpUrlFits(key: CString)
    requires |key| <= MaxArgLen
    ensures Snprintf(SignUpUrlSize, SignUpBase + key) == SignUpBase + key
  {
  }

  /** The capacity Send and Read give their variable-length URL buffer. */
  function UrlCapacity(host: CString, path: CString, token: CString): nat
  {
    64 + |host| + |path| + |token| + 1
  }

  /** "https://%s%s.json?auth=%s" with host, path and token. */
  function DataUrl(host: CString, path: CString, token: CString): (u: CString)
    ensures |u| == |Https| + |host| + |path| + |JsonAuth| + |token|
    ensures u[..|Https|] == Https && u[|Https|..|Https| + |host|] == host
    ensures u[|u| - |token|..] == token
  {
    Https + host + path + JsonAuth + token
  }

  /** The URL buffer always holds the whole formatted URL. */
  lemma DataUrlFits(host: CString, path: CString, token: CString)
    ensures |DataUrl(host, path, token)| < UrlCapacity(host, path, token)
    ensures Snprintf(UrlCapacity(host, path, token), DataUrl(host, path, token)) == DataUrl(host, path, token)
  {
  }

  datatype Method = Get | Put | Post

  /** A request handed to PerformRequest: URL, verb and optional body. */
  datatype Request = Request(url: CString, verb: Method, body: Option<CString>)

  /** What the JSON parser makes of the sign-in response. */
  datatype SignInReply = Unparsable | Parsed(idToken: Option<CString>)

  class Firebase {
    var tag: CString
    var apiKey: Option<CString>
    const host: array<char>
    const idToken: array<char>
    /** client_ != nullptr; esp_http_client_init is taken to succeed. */
    var hasClient: bool
    /** config.url the client was initialised with. */
    var clientUrl: CString
    var isConnected: bool

    ghost predicate Valid()
      reads this, host, idToken
    {
      && host.Length == HostSize && idToken.Length == TokenSize && host != idToken
      && host[HostSize - 1] == '\0' && idToken[TokenSize - 1] == '\0'
    }

    /** host_ read as a C string. */
    function HostString(): CString
      reads this, host
    {
      CStr(host[..])
    }

    /** idToken_ read as a C string. */
    function TokenString(): CString
      reads this, idToken
    {
      CStr(idToken[..])
    }

    constructor (tagArg: CString, apiKeyArg: Option<CString>, hostArg: Option<CString>)
      ensures Valid() && fresh(host) && fresh(idToken)
      ensures tag == tagArg && !isConnected && idToken[..] == Nuls(TokenSize)
      ensures apiKeyArg.None? || |apiKeyArg.value| > MaxArgLen ==>
        apiKey.None? && host[..] == Nuls(HostSize) && !hasClient
      ensures apiKeyArg.Some? && |apiKeyArg.value| <= MaxArgLen ==> apiKey == apiKeyArg
      ensures apiKeyArg.Some? && |apiKeyArg.value| <= MaxArgLen && (hostArg.None? || |hostArg.value| > MaxArgLen) ==>
        host[..] == Nuls(HostSize) && !hasClient
      ensures apiKeyArg.Some? && |apiKeyArg.value| <= MaxArgLen && hostArg.Some? && |hostArg.value| <= MaxArgLen ==>
        host[..] == HostBuffer(hostArg.value) && hasClient && clientUrl == SignUpBase + apiKeyArg.value
    {
      tag := tagArg;
      apiKey := None;
      host := new char[HostSize](_ => '\0');
      idToken := new char[TokenSize](_ => '\0');
      hasClient := false;
      clientUrl := "";
      isConnected := false;
      new;
      idToken[0] := '\0';
      if apiKeyArg.Some? && |apiKeyArg.value| <= MaxArgLen {
        apiKey := apiKeyArg;
        if hostArg.Some? && |hostArg.value| <= MaxArgLen {
          WriteHost(hostArg.value);
          var url := Snprintf(SignUpUrlSize, SignUpBase + apiKeyArg.value);
          SignUpUrlFits(apiKeyArg.value);
          clientUrl := url;
          hasClient := true;
        }
      }
    }

    /**
     * The host handling of the constructor on a zeroed host_: strip the
     * prefix, strncpy at most 62 characters, force host_[62] to NUL, and
     * append '/' when the result does not end in one. The test treats an
     * empty copy as missing its '/' (see NormalizeAsWritten for the test as
     * written).
     */
    method WriteHost(h: CString)
      requires host.Length == HostSize && forall i :: 0 <= i < HostSize ==> host[i] == '\0'
      modifies host
      ensures host[..] == HostBuffer(h)
    {
      var c := Copied(h);
      CopyHost(h);
      TerminatedLength(c, host[..]);
      var len := |CStr(host[..])|;
      AppendSlash(c, len);
      if c == [] || c[|c| - 1] != '/' {
        assert Normalized(h) == c + "/";
      } else {
        assert Normalized(h) == c;
      }
    }

    /** if (len == 0 || host_[len - 1] != '/') { host_[len] = '/'; host_[len + 1] = NUL; } */
    method AppendSlash(ghost c: CString, len: nat)
      requires host.Length == HostSize && |c| <= HostSize - 2 && len == |c|
      requires host[..] == c + Nuls(HostSize - |c|)
      modifies host
      ensures c == [] || c[|c| - 1] != '/' ==> host[..] == (c + "/") + Nuls(HostSize - |c + "/"|)
      ensures c != [] && c[|c| - 1] == '/' ==> host[..] == c + Nuls(HostSize - |c|)
    {
      ghost var buf := host[..];
      if len == 0 || host[len - 1] != '/' {
        host[len] := '/';
        host[len + 1] := '\0';
        assert host[..] == buf[|c| := '/'][|c| + 1 := '\0'];
        SlashAppended(c);
      }
    }

    /** strncpy(host_, cleaned, 62) and host_[62] = NUL on a zeroed host_. */
    method CopyHost(h: CString)
      requires host.Length == HostSize && forall i :: 0 <= i < HostSize ==> host[i] == '\0'
      modifies host
      ensures host[..] == Copied(h) + Nuls(HostSize - |Copied(h)|)
    {
      var copy := StrNCpy(CleanHost(h), HostSize - 2);
      forall i | 0 <= i < HostSize - 2 {
        host[i] := copy[i];
      }
      host[HostSize - 2] := '\0';
      assert host[..] == Copied(h) + Nuls(HostSize - |Copied(h)|);
    }

    /**
     * SignInAnonymously, given the outcome of the POST (err, status) and of
     * parsing the response buffer. A string token is copied with
     * strncpy(idToken_, token, 1023); the connection is recorded only after a
     * 200 response that parses.
     */
    method SignInAnonymously(err: int, status: int, reply: SignInReply) returns (ret: int)
      requires Valid()
      modifies idToken, this`isConnected
      ensures Valid()
      ensures err != ESP_OK || status != HttpOkStatus || reply.Unparsable? ==>
        ret == ESP_FAIL && isConnected == old(isConnected) && idToken[..] == old(idToken[..])
      ensures err == ESP_OK && status == HttpOkStatus && reply.Parsed? ==>
        && ret == ESP_OK && isConnected
        && idToken[..] == (if reply.idToken.Some?
                           then StrNCpy(reply.idToken.value, TokenSize - 1) + ['\0']
                           else old(idToken[..]))
    {
      if err != ESP_OK || status != HttpOkStatus {
        return ESP_FAIL;
      }
      match reply {
        case Unparsable =>
          return ESP_FAIL;
        case Parsed(token) =>
          if token.Some? {
            var copy := StrNCpy(token.value, TokenSize - 1);
            forall i | 0 <= i < TokenSize - 1 {
              idToken[i] := copy[i];
            }
            assert idToken[..] == copy + ['\0'];
          }
          isConnected := true;
          return ESP_OK;
      }
    }

    /** Send: a PUT of the JSON body, or nothing before sign-in. */
    method Send(path: CString, json: CString) returns (r: Option<Request>)
      requires Valid()
      ensures r.Some? <==> isConnected
      ensures r.Some? ==> r.value == Request(DataUrl(HostString(), path, TokenString()), Put, Some(json))
    {
      if !isConnected {
        return None;
      }
      var h, t := HostString(), TokenString();
      var url := Snprintf(UrlCapacity(h, path, t), DataUrl(h, path, t));
      DataUrlFits(h, path, t);
      return Some(Request(url, Put, Some(json)));
    }

    /** Read: a GET without body, or nothing before sign-in. */
    method Read(path: CString) returns (r: Option<Request>)
      requires Valid()
      ensures r.Some? <==> isConnected
      ensures r.Some? ==> r.value == Request(DataUrl(HostString(), path, TokenString()), Get, None)
    {
      if !isConnected {
        return None;
      }
      var h, t := HostString(), TokenString();
      var url := Snprintf(UrlCapacity(h, path, t), DataUrl(h, path, t));
      DataUrlFits(h, path, t);
      return Some(Request(url, Get, None));
    }
  }

  /** After a token copy idToken_ holds at most 1023 characters of the token and stays terminated. */
  lemma TokenCopyTerminated(token: CString)
    ensures var buf := StrNCpy(token, TokenSize - 1) + ['\0'];
      && |buf| == TokenSize && buf[TokenSize - 1] == '\0'
      && CStr(buf) == token[..Min(|token|, TokenSize - 1)]
  {
    var k := Min(|token|, TokenSize - 1);
    var buf := StrNCpy(token, TokenSize - 1) + ['\0'];
    assert buf == token[..k] + (Nuls(TokenSize - 1 - k) + ['\0']);
    CStrOfTerminated(token[..k], Nuls(TokenSize - 1 - k) + ['\0']);
  }
}
