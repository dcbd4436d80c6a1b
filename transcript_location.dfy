/**
 * Where the monitor fetches a finished transcript from: the bucket and key
 * read off the transcript URI the transcription service reports, in one of
 * its `https://` forms or as an `s3://` URI.
 */
module TranscriptLocation {
  import opened Wrappers
  import Text

  datatype Location = Location(bucket: string, key: string)

  /** The first index of `s` holding one of `stops`, or `|s|`. */
  function FirstOf(s: string, stops: set<char>): (r: nat)
    ensures r <= |s|
    ensures r < |s| ==> s[r] in stops
    ensures forall i :: 0 <= i < r ==> s[i] !in stops
  {
    if s == [] then 0
    else if s[0] in stops then 0
    else 1 + FirstOf(s[1..], stops)
  }

  /** The network location of `https://` + `rest`: up to the first `/`, `?` or `#`. */
  function Netloc(rest: string): string
  {
    rest[..FirstOf(rest, {'/', '?', '#'})]
  }

  /** The path of `https://` + `rest`: after the network location, up to the query or fragment. */
  function UrlPath(rest: string): string
  {
    var tail := rest[FirstOf(rest, {'/', '?', '#'})..];
    tail[..FirstOf(tail, {'?', '#'})]
  }

  /** The bucket and key, refused when either is empty. */
  function Checked(uri: string, bucket: string, key: string): (r: Result<Location>)
    ensures r.Ok? <==> bucket != [] && key != []
    ensures r.Ok? ==> r.value == Location(bucket, key)
  {
    if bucket == [] || key == [] then Err("Could not extract bucket/key from URI: " + uri)
    else Ok(Location(bucket, key))
  }

  /** `bucket/key` split once at the first `/`; the key is empty when there is no `/`. */
  function SplitBucketKey(s: string): (r: (string, string))
    ensures '/' !in r.0
    ensures '/' in s ==> s == r.0 + "/" + r.1
    ensures '/' !in s ==> r == (s, [])
  {
    var parts := Text.SplitOnce(s, "/");
    if |parts| > 1 then
      assert '/' !in parts[0] by { NoSlash(parts[0]); }
      assert '/' in s by { assert s[|parts[0]|] == '/'; }
      (parts[0], parts[1])
    else
      assert '/' !in s by { NoSlash(s); }
      (parts[0], [])
  }

  lemma NoSlash(s: string)
    requires !Text.Contains(s, "/")
    ensures '/' !in s
  {
    if '/' in s {
      var i :| 0 <= i < |s| && s[i] == '/';
      assert s[i..i + 1] == "/";
      Text.ContainsAt(s, "/", i);
    }
  }

  /** The path-style reading: the path, its leading slashes removed, is `bucket/key`. */
  function PathStyle(uri: string, path: string): Result<Location>
  {
    var bk := SplitBucketKey(Text.LStripChar(path, '/'));
    Checked(uri, bk.0, bk.1)
  }

  /** The virtual-hosted test: the host names both `.s3.` and `.amazonaws.com`. */
  predicate VirtualHosted(netloc: string)
  {
    Text.Contains(netloc, ".s3.") && Text.Contains(netloc, ".amazonaws.com")
  }

  /** The path-style test: the host is `s3.` … `.amazonaws.com`. */
  predicate PathStyleHost(netloc: string)
  {
    Text.StartsWith(netloc, "s3.") && Text.EndsWith(netloc, ".amazonaws.com")
  }

  /** The `https://` forms, by the URL's host and path. */
  function Https(uri: string, netloc: string, path: string): (r: Result<Location>)
    ensures r.Ok? ==> r.value.bucket != [] && r.value.key != []
  {
    if VirtualHosted(netloc) then Checked(uri, Text.Before(netloc, ".s3."), Text.LStripChar(path, '/'))
    else if PathStyleHost(netloc) then PathStyle(uri, path)
    else if netloc == "s3.amazonaws.com" then PathStyle(uri, path)
    else Err("Unknown S3 URL format: " + uri)
  }

  /**
   * `download_transcript`'s parsing.  A successful parse always has a
   * non-empty bucket and key.
   */
  function Locate(uri: string): (r: Result<Location>)
    ensures r.Ok? ==> r.value.bucket != [] && r.value.key != []
    ensures !Text.StartsWith(uri, "https://") && !Text.StartsWith(uri, "s3://") ==> r.Err?
  {
    if Text.StartsWith(uri, "https://") then
      var rest := uri[|"https://"|..];
      Https(uri, Netloc(rest), UrlPath(rest))
    else if Text.StartsWith(uri, "s3://") then
      var bk := SplitBucketKey(Text.RemoveAll(uri, "s3://"));
      Checked(uri, bk.0, bk.1)
    else Err("Unsupported URI format: " + uri)
  }

  /**
   * The legacy `s3.amazonaws.com` host never reaches its own branch: it
   * already passes the path-style test, and it is not virtual-hosted.
   */
  lemma LegacyUnreachable()
    ensures PathStyleHost("s3.amazonaws.com")
    ensures !VirtualHosted("s3.amazonaws.com")
  {
    var host := "s3.amazonaws.com";
    assert host[..3] == "s3.";
    assert host[|host| - |".amazonaws.com"|..] == ".amazonaws.com";
    forall i | 0 <= i ensures !Text.IsAt(host, ".s3.", i) {
      if i + 4 <= |host| {
        assert host[i..i + 4][0] == host[i] && host[i..i + 4][3] == host[i + 3];
      }
    }
  }

  /** The cut at the first stop character of `a + b`, when `a` holds none and `b` starts with one. */
  lemma FirstOfAppend(a: string, b: string, stops: set<char>)
    requires forall i :: 0 <= i < |a| ==> a[i] !in stops
    requires b != [] && b[0] in stops
    ensures FirstOf(a + b, stops) == |a|
  {
    assert (a + b)[|a|] == b[0];
    assert forall i :: 0 <= i < |a| ==> (a + b)[i] == a[i];
  }

  /** No stop character at all: the cut is the end. */
  lemma FirstOfNone(a: string, stops: set<char>)
    requires forall i :: 0 <= i < |a| ==> a[i] !in stops
    ensures FirstOf(a, stops) == |a|
  {
  }

  /** A URI's host and path, for a host without `/`, `?`, `#` and a path without `?`, `#`. */
  lemma HostAndPath(host: string, path: string)
    requires forall i :: 0 <= i < |host| ==> host[i] !in {'/', '?', '#'}
    requires forall i :: 0 <= i < |path| ==> path[i] !in {'?', '#'}
    ensures Netloc(host + "/" + path) == host
    ensures UrlPath(host + "/" + path) == "/" + path
  {
    var rest := host + "/" + path;
    assert rest == host + ("/" + path);
    FirstOfAppend(host, "/" + path, {'/', '?', '#'});
    assert rest[|host|..] == "/" + path;
    FirstOfNone("/" + path, {'?', '#'});
  }

  /** Removing the leading slash of a key that does not start with one. */
  lemma StripOneSlash(key: string)
    requires key == [] || key[0] != '/'
    ensures Text.LStripChar("/" + key, '/') == key
  {
    assert ("/" + key)[1..] == key;
  }

  /** An `https://` URL is read by its host and path. */
  lemma LocateHttps(host: string, path: string)
    requires forall i :: 0 <= i < |host| ==> host[i] !in {'/', '?', '#'}
    requires forall i :: 0 <= i < |path| ==> path[i] !in {'?', '#'}
    ensures Locate("https://" + host + "/" + path) == Https("https://" + host + "/" + path, host, "/" + path)
  {
    var uri := "https://" + host + "/" + path;
    assert uri == "https://" + (host + "/" + path);
    assert uri[..|"https://"|] == "https://";
    assert uri[|"https://"|..] == host + "/" + path;
    HostAndPath(host, path);
  }

  /** The virtual-hosted host `bucket.s3.region.amazonaws.com` holds no `/`, `?` or `#`. */
  lemma VirtualHostChars(bucket: string, region: string)
    requires forall i :: 0 <= i < |bucket| ==> bucket[i] !in {'.', '/', '?', '#'}
    requires forall i :: 0 <= i < |region| ==> region[i] !in {'/', '?', '#'}
    ensures var host := bucket + ".s3." + region + ".amazonaws.com";
            forall i :: 0 <= i < |host| ==> host[i] !in {'/', '?', '#'}
  {
    var host := bucket + ".s3." + region + ".amazonaws.com";
    forall i | 0 <= i < |host| ensures host[i] !in {'/', '?', '#'} {
      if i < |bucket| {
        assert host[i] == bucket[i];
      } else if i < |bucket| + 4 {
        assert host[i] == ".s3."[i - |bucket|];
      } else if i < |bucket| + 4 + |region| {
        assert host[i] == region[i - |bucket| - 4];
      } else {
        assert host[i] == ".amazonaws.com"[i - |bucket| - 4 - |region|];
      }
    }
  }

  /** `bucket.s3.region.amazonaws.com` passes the virtual-hosted test and names the bucket before `.s3.`. */
  lemma VirtualHostParts(bucket: string, region: string)
    requires forall i :: 0 <= i < |bucket| ==> bucket[i] != '.'
    ensures VirtualHosted(bucket + ".s3." + region + ".amazonaws.com")
    ensures Text.Before(bucket + ".s3." + region + ".amazonaws.com", ".s3.") == bucket
  {
    var host := bucket + ".s3." + region + ".amazonaws.com";
    assert host == bucket + ".s3." + (region + ".amazonaws.com");
    BeforeMarker(bucket, region + ".amazonaws.com");
    assert host[|host| - |".amazonaws.com"|..] == ".amazonaws.com";
    Text.ContainsAt(host, ".amazonaws.com", |host| - |".amazonaws.com"|);
    Text.ContainsAt(host, ".s3.", |bucket|);
  }

  /**
   * A virtual-hosted URL, `https://bucket.s3.region.amazonaws.com/key`,
   * gives back its bucket and key.
   */
  lemma VirtualHostedRoundTrip(bucket: string, region: string, key: string)
    requires bucket != [] && key != [] && key[0] != '/'
    requires forall i :: 0 <= i < |bucket| ==> bucket[i] !in {'.', '/', '?', '#'}
    requires forall i :: 0 <= i < |region| ==> region[i] !in {'/', '?', '#'}
    requires forall i :: 0 <= i < |key| ==> key[i] !in {'?', '#'}
    ensures Locate("https://" + bucket + ".s3." + region + ".amazonaws.com" + "/" + key) == Ok(Location(bucket, key))
  {
    var host := bucket + ".s3." + region + ".amazonaws.com";
    var uri := "https://" + host + "/" + key;
    assert "https://" + bucket + ".s3." + region + ".amazonaws.com" + "/" + key == uri;
    VirtualHostChars(bucket, region);
    LocateHttps(host, key);
    VirtualHostParts(bucket, region);
    StripOneSlash(key);
    assert Https(uri, host, "/" + key) == Checked(uri, bucket, key);
  }

  /** The text before `.s3.` in `bucket.s3.rest` is the bucket, when the bucket has no dot. */
  lemma BeforeMarker(bucket: string, rest: string)
    requires forall i :: 0 <= i < |bucket| ==> bucket[i] != '.'
    ensures Text.Before(bucket + ".s3." + rest, ".s3.") == bucket
    ensures Text.IsAt(bucket + ".s3." + rest, ".s3.", |bucket|)
  {
    var s := bucket + ".s3." + rest;
    assert s[|bucket|..|bucket| + 4] == ".s3.";
    forall i | 0 <= i < |bucket| ensures !Text.IsAt(s, ".s3.", i) {
      assert s[i] == bucket[i];
      assert i + 4 <= |s| ==> s[i..i + 4][0] == s[i];
    }
    assert Text.IsAt(s, ".s3.", |bucket|);
    var r := Text.Find(s, ".s3.");
    assert r != -1 && r <= |bucket|;
    assert r == |bucket|;
    assert s[..|bucket|] == bucket;
  }

  /**
   * An `s3://bucket/key` URI gives back its bucket and key, when nothing
   * after the scheme spells `s3://` again.
   */
  lemma S3RoundTrip(bucket: string, key: string)
    requires bucket != [] && key != [] && '/' !in bucket
    requires !Text.Contains(bucket + "/" + key, "s3://")
    ensures Locate("s3://" + bucket + "/" + key) == Ok(Location(bucket, key))
  {
    var rest := bucket + "/" + key;
    var uri := "s3://" + rest;
    assert uri == "s3://" + bucket + "/" + key;
    assert Text.StartsWith(uri, "s3://") && !Text.StartsWith(uri, "https://") by {
      assert uri[..5] == "s3://";
      assert uri[0] == 's';
    }
    assert Text.IsAt(uri, "s3://", 0) by { assert uri[0..5] == "s3://"; }
    assert Text.Find(uri, "s3://") == 0;
    assert uri[5..] == rest;
    assert Text.Split(rest, "s3://") == [rest];
    assert Text.Split(uri, "s3://") == [[]] + [rest];
    assert Text.Concat([[]] + [rest]) == [] + Text.Concat([rest]);
    assert Text.Concat([rest]) == rest + Text.Concat([]);
    assert Text.RemoveAll(uri, "s3://") == rest;
    assert rest[|bucket|] == '/';
    var bk := SplitBucketKey(rest);
    PieceAtSlash(bucket, key, bk.0, bk.1);
  }

  /** Cutting `bucket/key` at its first slash gives the bucket and the key. */
  lemma PieceAtSlash(bucket: string, key: string, b: string, k: string)
    requires '/' !in bucket && '/' !in b
    requires bucket + "/" + key == b + "/" + k
    ensures b == bucket && k == key
  {
    var s := bucket + "/" + key;
    assert forall i :: 0 <= i < |bucket| ==> s[i] == bucket[i];
    assert forall i :: 0 <= i < |b| ==> s[i] == (b + "/" + k)[i] == b[i];
    assert s[|bucket|] == '/';
    assert (b + "/" + k)[|b|] == '/';
    assert |b| == |bucket|;
    assert b == s[..|b|] == bucket;
    assert k == s[|b| + 1..] == key;
  }

  /**
   * A path-style URL, `https://host/bucket/key` with an `s3.` …
   * `.amazonaws.com` host that is not virtual-hosted, gives back its
   * bucket and key.
   */
  lemma PathStyleRoundTrip(host: string, bucket: string, key: string)
    requires PathStyleHost(host) && !VirtualHosted(host)
    requires forall i :: 0 <= i < |host| ==> host[i] !in {'/', '?', '#'}
    requires bucket != [] && key != [] && bucket[0] != '/'
    requires forall i :: 0 <= i < |bucket| ==> bucket[i] !in {'/', '?', '#'}
    requires forall i :: 0 <= i < |key| ==> key[i] !in {'?', '#'}
    ensures Locate("https://" + host + "/" + (bucket + "/" + key)) == Ok(Location(bucket, key))
  {
    var path := bucket + "/" + key;
    forall i | 0 <= i < |path| ensures path[i] !in {'?', '#'} {
      if i < |bucket| {
        assert path[i] == bucket[i];
      } else if i > |bucket| {
        assert path[i] == key[i - |bucket| - 1];
      }
    }
    LocateHttps(host, path);
    StripOneSlash(path);
    assert '/' !in bucket by {
      forall i | 0 <= i < |bucket| ensures bucket[i] != '/' { }
    }
    assert path[|bucket|] == '/';
    var bk := SplitBucketKey(path);
    PieceAtSlash(bucket, key, bk.0, bk.1);
  }
}
