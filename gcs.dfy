/** `parseGcsUri`: a `gs://` URI split into its bucket and its object path. */
module GcsUri {
  import opened Wrappers
  import opened Text

  const Scheme := "gs://"

  datatype GcsLocation = GcsLocation(bucket: string, objectPath: string)

  /**
   * Everything after the scheme is split at `/`: the first piece is the bucket, the remaining
   * pieces joined back with `/` are the object path. A URI without the scheme is an error that
   * quotes it.
   */
  function ParseGcsUri(uri: string): (r: Result<GcsLocation, string>)
    ensures r.Failure? <==> !StartsWith(uri, Scheme)
    ensures r.Failure? ==> r.error == "Invalid GCS URI: " + uri
  {
    if !StartsWith(uri, Scheme) then Failure("Invalid GCS URI: " + uri)
    else
      var parts := Split(uri[|Scheme|..], "/");
      Success(GcsLocation(parts[0], Join(parts[1..], "/")))
  }

  /** The bucket never contains a `/`. */
  lemma BucketHasNoSlash(uri: string)
    requires ParseGcsUri(uri).Success?
    ensures '/' !in ParseGcsUri(uri).value.bucket
  {
    var parts := Split(uri[|Scheme|..], "/");
    SplitPiecesAreFree(uri[|Scheme|..], "/");
    OccursAtChar(parts[0], '/');
    forall k | 0 <= k < |parts[0]| ensures parts[0][k] != '/' {
      assert !OccursAt(parts[0], k, "/");
    }
  }

  /** When the rest of the URI holds a `/`, bucket and path put back together give the URI. */
  lemma RoundTripWithPath(uri: string)
    requires StartsWith(uri, Scheme) && '/' in uri[|Scheme|..]
    ensures var loc := ParseGcsUri(uri).value;
            Scheme + loc.bucket + "/" + loc.objectPath == uri
  {
    var rest := uri[|Scheme|..];
    var parts := Split(rest, "/");
    SlashGivesTwoPieces(rest);
    JoinSplit(rest, "/");
    assert parts == [parts[0]] + parts[1..];
    JoinCons(parts[0], parts[1..], "/");
    assert uri == uri[..|Scheme|] + rest;
  }

  /** A string holding a `/` splits into at least two pieces. */
  lemma SlashGivesTwoPieces(s: string)
    requires '/' in s
    ensures |Split(s, "/")| >= 2
  {
    var k :| 0 <= k < |s| && s[k] == '/';
    assert s[k..k + 1] == "/";
    assert OccursAt(s, k, "/");
    assert IndexOf(s, "/", 0).Some?;
  }

  /** When the rest of the URI holds no `/`, it is the bucket and the path is empty. */
  lemma NoSlashMeansEmptyPath(uri: string)
    requires StartsWith(uri, Scheme) && '/' !in uri[|Scheme|..]
    ensures ParseGcsUri(uri) == Success(GcsLocation(uri[|Scheme|..], ""))
  {
    var rest := uri[|Scheme|..];
    OccursAtChar(rest, '/');
    assert forall k :: !OccursAt(rest, k, "/");
    SplitWithoutSeparator(rest, "/");
  }

  /** Any bucket without `/` and any path, written as a URI, parse back to themselves. */
  lemma ParseFormatted(bucket: string, objectPath: string)
    requires '/' !in bucket
    ensures ParseGcsUri(Scheme + bucket + "/" + objectPath) == Success(GcsLocation(bucket, objectPath))
  {
    var uri := Scheme + bucket + "/" + objectPath;
    assert uri[..|Scheme|] == Scheme;
    assert uri[|Scheme|..] == bucket + "/" + objectPath;
    NoOccurrenceInside(bucket, "/", objectPath);
    SplitAtFirst(bucket, "/", objectPath);
    var parts := Split(bucket + "/" + objectPath, "/");
    assert parts[1..] == Split(objectPath, "/");
    JoinSplit(objectPath, "/");
  }
}
