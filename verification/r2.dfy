/** The R2 bucket: a map from object keys to stored objects, and the key layout
    `ideas/<id>/data.json` (an idea's content blob) and
    `ideas/<id>/media/<file>` (its uploaded media). */
module R2 {
  import opened Wrappers
  import opened Json
  import opened Strings

  /** A stored object: a JSON document written by `putJson`, or binary content
      (only its length and content type are modelled). */
  datatype Blob = JsonBlob(data: Json) | BinaryBlob(size: nat, contentType: string)

  class Bucket {
    var objects: map<string, Blob>

    constructor ()
      ensures objects == map[]
    {
      objects := map[];
    }
  }

  /** `getJson` on a given bucket content: `null` (here `None`) for a missing key, the
      document for a JSON object, and a parse failure for binary content. */
  function Read(objects: map<string, Blob>, key: string): (r: Result<Option<Json>>)
    ensures r == Ok(None) <==> key !in objects
    ensures r.Ok? && r.value.Some? <==> key in objects && objects[key].JsonBlob?
  {
    if key !in objects then Ok(None)
    else match objects[key]
      case JsonBlob(d) => Ok(Some(d))
      case BinaryBlob(_, _) => Err("Unexpected token in JSON")
  }

  /** What `putJson` stores is what `getJson` reads back, and other keys are unaffected. */
  lemma ReadAfterWrite(objects: map<string, Blob>, key: string, other: string, b: Blob)
    ensures Read(objects[key := b], key) == Read(map[key := b], key)
    ensures b.JsonBlob? ==> Read(objects[key := b], key) == Ok(Some(b.data))
    ensures other != key ==> Read(objects[key := b], other) == Read(objects, other)
    ensures Read(objects - {key}, key) == Ok(None)
    ensures other != key ==> Read(objects - {key}, other) == Read(objects, other)
  {
  }

  method PutJson(bucket: Bucket, key: string, data: Json)
    modifies bucket
    ensures bucket.objects == old(bucket.objects)[key := JsonBlob(data)]
  {
    bucket.objects := bucket.objects[key := JsonBlob(data)];
  }

  function GetJson(bucket: Bucket, key: string): (r: Result<Option<Json>>)
    reads bucket
    ensures r == Read(bucket.objects, key)
  {
    Read(bucket.objects, key)
  }

  method DeleteObject(bucket: Bucket, key: string)
    modifies bucket
    ensures bucket.objects == old(bucket.objects) - {key}
  {
    bucket.objects := bucket.objects - {key};
  }

  method PutBinary(bucket: Bucket, key: string, size: nat, contentType: string)
    modifies bucket
    ensures bucket.objects == old(bucket.objects)[key := BinaryBlob(size, contentType)]
  {
    bucket.objects := bucket.objects[key := BinaryBlob(size, contentType)];
  }

  function MediaKey(ideaId: string, filename: string): (k: string)
    ensures StartsWith(k, "ideas/" + ideaId + "/media/") && EndsWith(k, filename)
  {
    "ideas/" + ideaId + "/media/" + filename
  }

  function DataKey(ideaId: string): (k: string)
    ensures StartsWith(k, "ideas/" + ideaId + "/") && EndsWith(k, "/data.json")
  {
    "ideas/" + ideaId + "/data.json"
  }

  /** Different ideas never share a content blob. */
  lemma DataKeyInjective(a: string, b: string)
    ensures DataKey(a) == DataKey(b) <==> a == b
  {
    if DataKey(a) == DataKey(b) {
      assert |a| == |b|;
      assert a == DataKey(a)[6..6 + |a|];
      assert b == DataKey(b)[6..6 + |b|];
    }
  }

  /** With ids free of '/', a content blob and a media object never share a key. */
  lemma DataKeyNotMediaKey(a: string, ideaId: string, filename: string)
    requires '/' !in a && '/' !in ideaId
    ensures DataKey(a) != MediaKey(ideaId, filename)
  {
    var d := DataKey(a);
    var m := MediaKey(ideaId, filename);
    if |a| < |ideaId| {
      assert ideaId[|a|] in ideaId;
      assert d[6 + |a|] != m[6 + |a|];
    } else if |ideaId| < |a| {
      assert a[|ideaId|] in a;
      assert d[6 + |ideaId|] != m[6 + |ideaId|];
    } else {
      assert d[7 + |a|] != m[7 + |a|];
    }
  }

  /** With ids free of '/', media of different ideas, or with different file names,
      never share a key. */
  lemma MediaKeyInjective(i1: string, f1: string, i2: string, f2: string)
    requires '/' !in i1 && '/' !in i2
    ensures MediaKey(i1, f1) == MediaKey(i2, f2) <==> i1 == i2 && f1 == f2
  {
    var m1 := MediaKey(i1, f1);
    var m2 := MediaKey(i2, f2);
    if |i1| < |i2| {
      assert i2[|i1|] in i2;
      assert m1[6 + |i1|] != m2[6 + |i1|];
    } else if |i2| < |i1| {
      assert i1[|i2|] in i1;
      assert m1[6 + |i2|] != m2[6 + |i2|];
    } else if m1 == m2 {
      assert i1 == m1[6..6 + |i1|] && i2 == m2[6..6 + |i2|];
      assert f1 == m1[13 + |i1|..] && f2 == m2[13 + |i1|..];
    }
  }
}
