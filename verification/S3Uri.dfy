/** s3:// URIs: building them from a listing and taking them apart again before a delete. */
module S3Uri {
  import opened Wrappers
  import opened Text

  datatype Location = Location(bucket: string, key: string)

  /** `f"s3://{bucket}/{key}"` */
  function Uri(l: Location): string { "s3://" + l.bucket + "/" + l.key }

  // ---- what urlparse does to an s3 URI ----

  /** Characters stripped from the front of any URL. */
  predicate IsC0OrSpace(c: char) { c <= ' ' }

  function LStripC0(s: string): string {
    if s != [] && IsC0OrSpace(s[0]) then LStripC0(s[1..]) else s
  }

  /** Tabs and line breaks are dropped wherever they stand. */
  predicate Unsafe(c: char) { c == '\t' || c == '\r' || c == '\n' }

  function DropUnsafe(s: string): (r: string)
    ensures |r| <= |s|
    ensures forall c :: c in r ==> c in s && !Unsafe(c)
    ensures (forall c :: c in s ==> !Unsafe(c)) ==> r == s
    ensures |r| == |s| ==> forall c :: c in s ==> !Unsafe(c)
  {
    if s == [] then [] else if Unsafe(s[0]) then DropUnsafe(s[1..]) else [s[0]] + DropUnsafe(s[1..])
  }

  /** The part before the first c, or all of it. */
  function Before(s: string, c: char): (r: string)
    ensures r <= s && c !in r
    ensures |r| == |s| <==> c !in s
  {
    if s == [] || s[0] == c then [] else [s[0]] + Before(s[1..], c)
  }

  predicate EndsAuthority(c: char) { c == '/' || c == '?' || c == '#' }

  function Authority(s: string): (r: string)
    ensures r <= s
    ensures forall c :: c in r ==> !EndsAuthority(c)
  {
    if s == [] || EndsAuthority(s[0]) then [] else [s[0]] + Authority(s[1..])
  }

  /** Bucket and key from what follows the scheme and its colon. */
  function ParseHierarchy(rest: string, directoryPrefix: bool): Result<Location, string> {
    if |rest| < 2 || rest[0] != '/' || rest[1] != '/' then Err("not an s3 URI")
    else
      var bucket := Authority(rest[2..]);
      var path := Before(Before(rest[2 + |bucket|..], '#'), '?');
      var key := LStripSlash(path);
      if bucket == [] then Err("not an s3 URI")
      else if '[' in bucket || ']' in bucket then Err("Invalid IPv6 URL")
      else if directoryPrefix && key != [] && !EndsWith(key, "/") then Ok(Location(bucket, key + "/"))
      else Ok(Location(bucket, key))
  }

  /** `parse_s3_uri`: scheme s3, a non-empty authority as bucket, the path without leading slashes as key;
      query and fragment are cut off. */
  function ParseS3Uri(uri: string, directoryPrefix: bool): Result<Location, string> {
    var split := SplitOnce(DropUnsafe(LStripC0(uri)), ':');
    if split.None? || (split.value.0 != "s3" && split.value.0 != "S3") then Err("not an s3 URI")
    else ParseHierarchy(split.value.1, directoryPrefix)
  }

  /** A bucket name that cannot be mistaken for anything else inside a URI. */
  predicate PlainBucket(b: string) {
    b != [] && forall c :: c in b ==> c !in {'/', '?', '#', '[', ']', '\t', '\r', '\n'}
  }

  /** Every bucket the parser returns is such a name. */
  lemma ParsedBucketIsPlain(uri: string, directoryPrefix: bool)
    requires ParseS3Uri(uri, directoryPrefix).Ok?
    ensures PlainBucket(ParseS3Uri(uri, directoryPrefix).value.bucket)
  {
    var url := DropUnsafe(LStripC0(uri));
    var rest := SplitOnce(url, ':').value.1;
    forall c | c in Authority(rest[2..]) ensures c in url {
      assert c in rest;
    }
  }

  predicate PlainKey(k: string) {
    && (forall c :: c in k ==> c !in {'?', '#', '\t', '\r', '\n'})
    && (k == [] || k[0] != '/')
  }

  /** Control characters and spaces in front of a URI make no difference. */
  lemma {:induction false} FrontIgnored(front: string, uri: string, directoryPrefix: bool)
    requires forall i :: 0 <= i < |front| ==> front[i] <= ' '
    ensures ParseS3Uri(front + uri, directoryPrefix) == ParseS3Uri(uri, directoryPrefix)
  {
    if front == [] {
      assert front + uri == uri;
    } else {
      assert (front + uri)[1..] == front[1..] + uri;
      FrontIgnored(front[1..], uri, directoryPrefix);
    }
  }

  /** As a directory, the key that was found ends with a slash, which is added where it is missing; an empty key
      stays empty. So nothing under a sibling directory whose name goes on from there begins with it. */
  lemma DirectoryKey(uri: string)
    ensures ParseS3Uri(uri, true).Ok? == ParseS3Uri(uri, false).Ok?
    ensures ParseS3Uri(uri, true).Ok? ==>
              var found, dir := ParseS3Uri(uri, false).value, ParseS3Uri(uri, true).value;
              && dir.bucket == found.bucket
              && (found.key == [] ==> dir.key == [])
              && (found.key != [] ==>
                    dir.key == if found.key[|found.key| - 1] == '/' then found.key else found.key + ['/'])
  {
    var split := SplitOnce(DropUnsafe(LStripC0(uri)), ':');
    if split.Some? { DirectoryHierarchy(split.value.1); }
  }

  lemma DirectoryHierarchy(rest: string)
    ensures var found, dir := ParseHierarchy(rest, false), ParseHierarchy(rest, true);
            && dir.Ok? == found.Ok?
            && (dir.Ok? ==>
                  && dir.value.bucket == found.value.bucket
                  && dir.value.key == if found.value.key == [] || EndsWith(found.value.key, "/") then found.value.key
                                      else found.value.key + "/")
    ensures var found := ParseHierarchy(rest, false);
            found.Ok? && found.value.key != [] ==>
              (EndsWith(found.value.key, "/") <==> found.value.key[|found.value.key| - 1] == '/')
  {
    var found := ParseHierarchy(rest, false);
    if found.Ok? { LastSlash(found.value.key); }
  }

  lemma LastSlash(key: string)
    ensures key != [] ==> (EndsWith(key, "/") <==> key[|key| - 1] == '/')
  {
    if key != [] { assert key[|key| - 1..] == [key[|key| - 1]]; }
  }

  /** What makes a text without control characters an s3 URI: everything before its first colon is s3, and two
      slashes and something that can be a bucket follow. */
  lemma OnlyS3Uris(scheme: string, rest: string, directoryPrefix: bool)
    requires ':' !in scheme && forall c :: c in scheme + rest ==> c > ' '
    ensures ParseS3Uri(scheme + [':'] + rest, directoryPrefix).Ok? ==>
              && (scheme == "s3" || scheme == "S3")
              && |rest| > 2 && rest[0] == '/' && rest[1] == '/' && rest[2] !in {'/', '?', '#', '[', ']'}
  {
    var uri := scheme + [':'] + rest;
    forall c | c in uri ensures c > ' ' {
      assert c in scheme + rest || c == ':';
    }
    assert uri[0] in uri;
    assert forall c :: c in uri ==> !Unsafe(c);
    SplitJoined(scheme, ':', rest);
    if ParseS3Uri(uri, directoryPrefix).Ok? {
      var bucket := Authority(rest[2..]);
      assert bucket[0] == rest[2] && bucket[0] in bucket;
    }
  }

  /** Where there is no colon there is no URI. */
  lemma NoColonNoUri(text: string, directoryPrefix: bool)
    requires ':' !in text
    ensures ParseS3Uri(text, directoryPrefix).Err?
  {
    LStripC0Subset(text);
  }

  lemma {:induction false} LStripC0Subset(s: string)
    ensures forall c :: c in LStripC0(s) ==> c in s
  {
    if s != [] && IsC0OrSpace(s[0]) { LStripC0Subset(s[1..]); }
  }

  lemma {:induction false} DropUnsafeJoined(a: string, b: string)
    ensures DropUnsafe(a + b) == DropUnsafe(a) + DropUnsafe(b)
  {
    if a == [] {
      assert a + b == b;
    } else {
      assert (a + b)[1..] == a[1..] + b;
      DropUnsafeJoined(a[1..], b);
    }
  }

  lemma {:induction false} AuthorityJoined(a: string, rest: string)
    requires forall c :: c in a ==> !EndsAuthority(c)
    ensures Authority(a + ['/'] + rest) == a
  {
    var s := a + ['/'] + rest;
    if a == [] {
      assert s[0] == '/';
    } else {
      assert s[0] == a[0] && s[1..] == a[1..] + ['/'] + rest;
      AuthorityJoined(a[1..], rest);
      assert [a[0]] + a[1..] == a;
    }
  }

  /** What is left of a key after a trip through a URI. */
  function KeySeen(k: string): string { LStripSlash(Before(Before(DropUnsafe(k), '#'), '?')) }

  lemma CleanFront(bucket: string)
    requires PlainBucket(bucket)
    ensures DropUnsafe("s3://" + bucket + "/") == "s3://" + bucket + "/"
  {
    forall c | c in "s3://" + bucket + "/" ensures !Unsafe(c) {
      assert c in "s3:/" || c in bucket;
    }
  }

  lemma CleanUri(l: Location)
    requires PlainBucket(l.bucket)
    ensures DropUnsafe(LStripC0(Uri(l))) == "s3://" + l.bucket + "/" + DropUnsafe(l.key)
  {
    assert Uri(l)[0] == 's';
    CleanFront(l.bucket);
    DropUnsafeJoined("s3://" + l.bucket + "/", l.key);
  }

  lemma Regroup(bucket: string, key: string)
    ensures "s3://" + bucket + "/" + key == "s3" + [':'] + ("//" + (bucket + ['/'] + key))
  {
    assert "s3://" == "s3" + [':'] + "//";
  }

  lemma AfterBucket(front: string, bucket: string, path: string)
    ensures (front + (bucket + path))[|front|..] == bucket + path
    ensures (front + (bucket + path))[|front| + |bucket|..] == path
  {
  }

  lemma HierarchyOf(rest: string, bucket: string, path: string)
    requires PlainBucket(bucket)
    requires |rest| >= 2 + |bucket| && rest[0] == '/' && rest[1] == '/'
    requires Authority(rest[2..]) == bucket && rest[2 + |bucket|..] == path
    ensures ParseHierarchy(rest, false) == Ok(Location(bucket, LStripSlash(Before(Before(path, '#'), '?'))))
  {
  }

  lemma HierarchyParses(bucket: string, key: string)
    requires PlainBucket(bucket)
    ensures ParseHierarchy("//" + (bucket + ['/'] + key), false)
         == Ok(Location(bucket, LStripSlash(Before(Before(key, '#'), '?'))))
  {
    var tail := bucket + ['/'] + key;
    var rest := "//" + tail;
    assert rest[2..] == tail && rest[2 + |bucket|..] == ['/'] + key by {
      assert tail == bucket + (['/'] + key);
      AfterBucket("//", bucket, ['/'] + key);
    }
    assert forall c :: c in bucket ==> !EndsAuthority(c);
    AuthorityJoined(bucket, key);
    HierarchyOf(rest, bucket, ['/'] + key);
    SlashFirst(key);
  }

  lemma UriParses(l: Location)
    requires PlainBucket(l.bucket)
    ensures ParseS3Uri(Uri(l), false) == Ok(Location(l.bucket, KeySeen(l.key)))
  {
    var key := DropUnsafe(l.key);
    var rest := "//" + (l.bucket + ['/'] + key);
    CleanUri(l);
    Regroup(l.bucket, key);
    SplitJoined("s3", ':', rest);
    HierarchyParses(l.bucket, key);
  }

  lemma SlashFirst(k: string)
    ensures LStripSlash(Before(Before(['/'] + k, '#'), '?')) == LStripSlash(Before(Before(k, '#'), '?'))
  {
    assert (['/'] + k)[1..] == k;
    var b := Before(k, '#');
    assert Before(['/'] + k, '#') == ['/'] + b;
    assert (['/'] + b)[1..] == b;
    assert Before(['/'] + b, '?') == ['/'] + Before(b, '?');
    assert (['/'] + Before(b, '?'))[1..] == Before(b, '?');
  }

  /** Exactly the keys whose listed URI names the object again. */
  lemma UriRoundTrip(l: Location)
    requires PlainBucket(l.bucket)
    ensures ParseS3Uri(Uri(l), false) == Ok(l) <==> PlainKey(l.key)
  {
    UriParses(l);
    KeySurvives(l.key);
  }

  /** The URI of a table path with a plain key is read as the directory of that key. */
  lemma TablePathParses(l: Location)
    requires PlainBucket(l.bucket) && PlainKey(l.key)
    ensures ParseS3Uri(Uri(l), true)
         == Ok(Location(l.bucket, if l.key == [] || l.key[|l.key| - 1] == '/' then l.key else l.key + ['/']))
  {
    UriRoundTrip(l);
    DirectoryKey(Uri(l));
  }

  lemma KeySurvives(k: string)
    ensures KeySeen(k) == k <==> PlainKey(k)
  {
    var d := DropUnsafe(k);
    var b := Before(d, '#');
    var q := Before(b, '?');
    assert |d| == |k| ==> d == k;
    assert '#' in d ==> '#' in k;
    assert '?' in b ==> '?' in k;
    assert |KeySeen(k)| <= |q| <= |b| <= |d| <= |k|;
  }
}
