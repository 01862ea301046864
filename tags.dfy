/** `tag_exists`: does a provider resource document already carry a tag pair? */
module Tags {
  import opened Wrappers
  import opened Documents

  datatype TagPair = TagPair(key: string, value: string)

  /** `tag.get('TagKey') == key and tag.get('TagValue') == value` for a dict `tag`:
      exact, case-sensitive comparison of both strings. */
  predicate Matches(tag: map<string, Json>, key: string, value: string)
  {
    Field(tag, "TagKey") == Str(key) && Field(tag, "TagValue") == Str(value)
  }

  /** The loop of `tag_exists` over the extracted tag list: true at the first
      exact match, false when the list runs out, and an error when an entry
      that is not a dict is reached first. */
  function Scan(tags: seq<Json>, key: string, value: string): Result<bool>
  {
    if tags == [] then Ok(false)
    else if !tags[0].Obj? then Err(NoAttribute)
    else if Matches(tags[0].fields, key, value) then Ok(true)
    else Scan(tags[1..], key, value)
  }

  /** What `tag_exists(resource, key, value)` computes; its implicit None
      (the loop ran out) reads as false. */
  function TagExistsSpec(resource: Json, key: string, value: string): Result<bool>
  {
    match Resolve(resource, ["Tags", "Tag"])
    case Err(e) => Err(e)
    case Ok(list) =>
      match Records(list)
      case Err(e) => Err(e)
      case Ok(tags) => Scan(tags, key, value)
  }

  /** Over a list of dicts the scan never raises, and it answers true exactly
      when some entry matches both key and value. */
  lemma {:induction false} ScanIff(tags: seq<Json>, key: string, value: string)
    requires forall i :: 0 <= i < |tags| ==> tags[i].Obj?
    ensures Scan(tags, key, value) ==
            Ok(exists i :: 0 <= i < |tags| && Matches(tags[i].fields, key, value))
  {
    if tags != [] && !Matches(tags[0].fields, key, value) {
      ScanIff(tags[1..], key, value);
      assert forall i :: 1 <= i < |tags| ==> tags[i] == tags[1..][i - 1];
    }
  }

  /** A true answer always has a witness: an exactly matching dict entry. */
  lemma {:induction false} ScanTrueHasWitness(tags: seq<Json>, key: string, value: string)
    requires Scan(tags, key, value) == Ok(true)
    ensures exists i :: 0 <= i < |tags| && tags[i].Obj? && Matches(tags[i].fields, key, value)
  {
    if !Matches(tags[0].fields, key, value) {
      ScanTrueHasWitness(tags[1..], key, value);
      var i :| 0 <= i < |tags[1..]| && tags[1..][i].Obj? && Matches(tags[1..][i].fields, key, value);
      assert tags[i + 1] == tags[1..][i];
    }
  }

  /** A provider resource document in the shape the describe calls return:
      an id, and a tag list that is either absent or a list of
      `{TagKey, TagValue}` dicts. */
  datatype Resource = Resource(id: string, tags: Option<seq<TagPair>>)

  function TagDoc(t: TagPair): Json
  {
    Obj(map["TagKey" := Str(t.key), "TagValue" := Str(t.value)])
  }

  /** The JSON document of `r`, its id stored under `idField`. */
  function ResourceDoc(r: Resource, idField: string): Json
    requires idField != "Tags"
  {
    var base := map[idField := Str(r.id)];
    match r.tags
    case None => Obj(base)
    case Some(ts) =>
      Obj(base["Tags" := Obj(map["Tag" := Arr(seq(|ts|, i requires 0 <= i < |ts| => TagDoc(ts[i])))])])
  }

  /** On a well-shaped document, `tag_exists` is membership of the pair in the
      tag list; a document without a tag list makes the loop raise. */
  lemma TagExistsOnResource(r: Resource, idField: string, key: string, value: string)
    requires idField != "Tags"
    ensures TagExistsSpec(ResourceDoc(r, idField), key, value) ==
            if r.tags.None? then Err(NotIterable) else Ok(TagPair(key, value) in r.tags.value)
  {
    var doc := ResourceDoc(r, idField);
    if r.tags.Some? {
      var ts := r.tags.value;
      var docs := seq(|ts|, i requires 0 <= i < |ts| => TagDoc(ts[i]));
      assert Get(doc, "Tags") == Ok(Obj(map["Tag" := Arr(docs)]));
      assert Resolve(doc, ["Tags", "Tag"]) == Ok(Arr(docs)) by {
        assert ["Tags", "Tag"][1..] == ["Tag"];
        assert Resolve(Arr(docs), ["Tag"][1..]) == Ok(Arr(docs));
      }
      ScanIff(docs, key, value);
      assert (exists i :: 0 <= i < |docs| && Matches(docs[i].fields, key, value))
         <==> TagPair(key, value) in ts by {
        forall i | 0 <= i < |docs|
          ensures Matches(docs[i].fields, key, value) <==> ts[i] == TagPair(key, value)
        {
        }
      }
    } else {
      assert Get(doc, "Tags") == Ok(Null);
    }
  }

  /** The loop of `tag_exists`. */
  method TagExists(resource: Json, key: string, value: string) returns (r: Result<bool>)
    ensures r == TagExistsSpec(resource, key, value)
  {
    var list := FindByPath(resource, ["Tags", "Tag"]);
    if list.Err? {
      return Err(list.error);
    }
    var records := Records(list.value);
    if records.Err? {
      return Err(records.error);
    }
    var tags := records.value;
    var i := 0;
    while i < |tags|
      invariant 0 <= i <= |tags|
      invariant Scan(tags, key, value) == Scan(tags[i..], key, value)
    {
      assert tags[i..][0] == tags[i] && tags[i..][1..] == tags[i + 1..];
      var tagKey := Get(tags[i], "TagKey");
      if tagKey.Err? {
        return Err(tagKey.error);
      }
      if tagKey.value == Str(key) {
        var tagValue := Get(tags[i], "TagValue");
        if tagValue.value == Str(value) {
          return Ok(true);
        }
      }
      i := i + 1;
    }
    r := Ok(false);
  }
}
