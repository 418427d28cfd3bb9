/**
 * The shared resource/relationship records, the tag helpers and the provider base class of
 * `clouddiscovery/shared/common.py`.
 */
module Common {
  import opened Wrappers

  /** Identity of a discovered entity: its id and its taxonomy type (`type` in the source). */
  datatype ResourceDigest = ResourceDigest(id: string, kind: string)

  /** A directed relationship between two digests; its label (`label` in the source) is absent unless given. */
  datatype ResourceEdge = ResourceEdge(fromNode: ResourceDigest, toNode: ResourceDigest, edgeLabel: Option<string> := None)

  /** One normalised tag. Keys may repeat inside one tag list. */
  datatype ResourceTag = ResourceTag(key: string, value: string)

  /** One discovered entity. Details and group default to "", tags to the empty list. */
  datatype Resource = Resource(
    digest: ResourceDigest,
    name: string,
    details: string := "",
    group: string := "",
    tags: seq<ResourceTag> := [])

  /** The defaults a record gets when a field is not supplied. */
  lemma RecordDefaults(digest: ResourceDigest, name: string, toNode: ResourceDigest)
    ensures Resource(digest, name).details == "" && Resource(digest, name).group == ""
    ensures Resource(digest, name).tags == []
    ensures ResourceEdge(digest, toNode).edgeLabel == None
  {
  }

  /** A raw tag as the cloud API returns it: a dictionary with a "Key" and a "Value" entry. */
  datatype TagEntry = TagEntry(key: string, value: string)

  /** Converts a list of raw `{Key, Value}` tags into records, one per entry, in the same order. */
  method ResourceTagsFromTuples(tuples: seq<TagEntry>) returns (result: seq<ResourceTag>)
    ensures |result| == |tuples|
    ensures forall i :: 0 <= i < |tuples| ==> result[i] == ResourceTag(tuples[i].key, tuples[i].value)
  {
    result := [];
    for i := 0 to |tuples|
      invariant |result| == i
      invariant forall j :: 0 <= j < i ==> result[j] == ResourceTag(tuples[j].key, tuples[j].value)
    {
      result := result + [ResourceTag(tuples[i].key, tuples[i].value)];
    }
  }

  /**
   * Converts a `{key: value}` dictionary into records: exactly one per entry, each an entry of the
   * dictionary, so the keys of the result are pairwise distinct.
   */
  method ResourceTagsFromDict(tags: map<string, string>) returns (result: seq<ResourceTag>)
    ensures |result| == |tags|
    ensures forall i :: 0 <= i < |result| ==> result[i].key in tags && tags[result[i].key] == result[i].value
    ensures forall k :: k in tags ==> ResourceTag(k, tags[k]) in result
    ensures forall i, j :: 0 <= i < j < |result| ==> result[i].key != result[j].key
  {
    result := [];
    var remaining := tags.Keys;
    while remaining != {}
      invariant remaining <= tags.Keys
      invariant |result| + |remaining| == |tags|
      invariant forall i :: 0 <= i < |result| ==>
        result[i].key in tags && result[i].key !in remaining && tags[result[i].key] == result[i].value
      invariant forall k :: k in tags && k !in remaining ==> ResourceTag(k, tags[k]) in result
      invariant forall i, j :: 0 <= i < j < |result| ==> result[i].key != result[j].key
      decreases remaining
    {
      var key :| key in remaining;
      result := result + [ResourceTag(key, tags[key])];
      remaining := remaining - {key};
    }
  }

  /**
   * Base of every resource-type adapter. It owns the list of edges found so far; adapters append to
   * it while they scan.
   */
  class ResourceProvider {
    var relationsFound: seq<ResourceEdge>

    constructor ()
      ensures relationsFound == []
    {
      relationsFound := [];
    }

    /** The base adapter finds nothing (and, having no modifies clause, changes nothing). */
    method GetResources() returns (resources: seq<Resource>)
      ensures resources == []
    {
      resources := [];
    }

    /** The edges accumulated so far, as they are. */
    method GetRelations() returns (relations: seq<ResourceEdge>)
      ensures relations == relationsFound
    {
      relations := relationsFound;
    }
  }

  /** A value of a description dictionary: a list of raw tags, or anything else. */
  datatype Field = TagList(entries: seq<TagEntry>) | Other

  /** `get_tag` iterates over `d["Tags"]` as a list of `{Key, Value}` dictionaries. */
  ghost predicate TagsWellFormed(d: map<string, Field>) {
    "Tags" in d ==> d["Tags"].TagList?
  }

  /** The value of the first entry of `entries` whose key is `name`. */
  function FirstTagValue(entries: seq<TagEntry>, name: string): Option<string> {
    if entries == [] then None
    else if entries[0].key == name then Some(entries[0].value)
    else FirstTagValue(entries[1..], name)
  }

  /** What a tag lookup on a description yields: nothing when it has no "Tags" entry. */
  ghost function TagValue(d: map<string, Field>, name: string): Option<string>
    requires TagsWellFormed(d)
  {
    if "Tags" in d then FirstTagValue(d["Tags"].entries, name) else None
  }

  /**
   * `FirstTagValue` is the first match: None exactly when no entry has the key, otherwise the value
   * of an entry with that key before which no entry has it.
   */
  lemma {:induction false} FirstTagValueIsFirstMatch(entries: seq<TagEntry>, name: string)
    ensures FirstTagValue(entries, name).None? <==> forall i :: 0 <= i < |entries| ==> entries[i].key != name
    ensures FirstTagValue(entries, name).Some? ==>
      exists i :: 0 <= i < |entries| && entries[i].key == name &&
        FirstTagValue(entries, name).value == entries[i].value &&
        forall m :: 0 <= m < i ==> entries[m].key != name
  {
    if entries != [] && entries[0].key != name {
      var rest := entries[1..];
      FirstTagValueIsFirstMatch(rest, name);
      assert forall i :: 1 <= i < |entries| ==> entries[i] == rest[i - 1];
      if FirstTagValue(rest, name).Some? {
        var i :| 0 <= i < |rest| && rest[i].key == name &&
          FirstTagValue(rest, name).value == rest[i].value &&
          forall m :: 0 <= m < i ==> rest[m].key != name;
        assert entries[i + 1] == rest[i];
        assert forall m :: 0 <= m < i + 1 ==> entries[m].key != name by {
          forall m | 0 <= m < i + 1 ensures entries[m].key != name {
            if m > 0 { assert entries[m] == rest[m - 1]; }
          }
        }
      }
    }
  }

  /** Looks `name` up among the tags of a description: the value of the first matching tag. */
  method GetTag(d: map<string, Field>, name: string) returns (r: Option<string>)
    requires TagsWellFormed(d)
    ensures r == TagValue(d, name)
  {
    var keys := d.Keys;
    while keys != {}
      invariant keys <= d.Keys
      invariant "Tags" in d && "Tags" !in keys ==> TagValue(d, name) == None
      decreases keys
    {
      var k :| k in keys;
      if k == "Tags" {
        var entries := d[k].entries;
        var j := 0;
        while j < |entries|
          invariant j <= |entries|
          invariant FirstTagValue(entries, name) == FirstTagValue(entries[j..], name)
        {
          if entries[j].key == name {
            return Some(entries[j].value);
          }
          assert entries[j..][1..] == entries[j + 1..];
          j := j + 1;
        }
      }
      keys := keys - {k};
    }
    return None;
  }

  /** The "Name" tag of a description, as `GetTag(d, "Name")` gives it. */
  method GetNameTag(d: map<string, Field>) returns (r: Option<string>)
    requires TagsWellFormed(d)
    ensures r == TagValue(d, "Name")
  {
    r := GetTag(d, "Name");
  }
}
