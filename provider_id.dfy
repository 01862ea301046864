/** The node's provider id, `<region>.<instance-id>`, and how `NodeInfo.__init__`
    splits it. */
module ProviderId {
  import opened Wrappers

  /** Python's `s.split(sep)`: the pieces between separators, at least one. */
  function Split(s: string, sep: char): (parts: seq<string>)
    ensures |parts| >= 1
  {
    if s == [] then [""]
    else
      var rest := Split(s[1..], sep);
      if s[0] == sep then [""] + rest else [[s[0]] + rest[0]] + rest[1..]
  }

  /** `sep.join(parts)`. */
  function Join(parts: seq<string>, sep: char): string
  {
    if parts == [] then ""
    else if |parts| == 1 then parts[0]
    else parts[0] + [sep] + Join(parts[1..], sep)
  }

  /** Joining the pieces with the separator gives the string back. */
  lemma {:induction false} JoinSplit(s: string, sep: char)
    ensures Join(Split(s, sep), sep) == s
  {
    if s != [] {
      var rest := Split(s[1..], sep);
      JoinSplit(s[1..], sep);
      if s[0] == sep {
        assert ([""] + rest)[1..] == rest;
        assert s == [s[0]] + s[1..];
      } else {
        var parts := [[s[0]] + rest[0]] + rest[1..];
        if |rest| == 1 {
          assert s == [s[0]] + rest[0];
        } else {
          assert parts[1..] == rest[1..];
          assert Join(rest, sep) == rest[0] + [sep] + Join(rest[1..], sep);
          assert s == [s[0]] + s[1..];
        }
      }
    }
  }

  /** No piece contains the separator. */
  lemma {:induction false} SplitPiecesHaveNoSep(s: string, sep: char)
    ensures forall i :: 0 <= i < |Split(s, sep)| ==> sep !in Split(s, sep)[i]
  {
    if s != [] {
      SplitPiecesHaveNoSep(s[1..], sep);
      var rest := Split(s[1..], sep);
      if s[0] == sep {
        assert forall i :: 1 <= i < |rest| + 1 ==> ([""] + rest)[i] == rest[i - 1];
      } else {
        var parts := [[s[0]] + rest[0]] + rest[1..];
        assert forall i :: 1 <= i < |parts| ==> parts[i] == rest[i];
      }
    }
  }

  /** A string free of the separator is a single piece; a separator after such
      a prefix ends the first piece. */
  lemma {:induction false} SplitAfterPrefix(a: string, b: string, sep: char)
    requires sep !in a
    ensures Split(a, sep) == [a]
    ensures Split(a + [sep] + b, sep) == [a] + Split(b, sep)
  {
    if a != [] {
      SplitAfterPrefix(a[1..], b, sep);
      assert (a + [sep] + b)[1..] == a[1..] + [sep] + b;
      assert a == [a[0]] + a[1..];
    } else {
      assert a + [sep] + b == [sep] + b;
      assert ([sep] + b)[1..] == b;
    }
  }

  /** `provider_info = provider_id.split('.')`, then `[0]` and `[1]`: the region
      and the instance id; a provider id without a '.' has no `[1]`. */
  function ParseProviderId(providerId: string): Result<(string, string)>
  {
    var parts := Split(providerId, '.');
    if |parts| < 2 then Err(IndexOutOfRange) else Ok((parts[0], parts[1]))
  }

  /** The split succeeds exactly when the provider id contains a '.'. The region
      is the text before the first '.', the instance id the text from there up to
      the second '.' or the end, and neither contains a '.'. */
  lemma ParseProviderIdMeaning(providerId: string)
    ensures ParseProviderId(providerId).Ok? <==> '.' in providerId
    ensures ParseProviderId(providerId).Ok? ==>
      var (region, instanceId) := ParseProviderId(providerId).value;
      '.' !in region && '.' !in instanceId &&
      exists rest :: providerId == region + "." + instanceId + rest && (rest == "" || rest[0] == '.')
  {
    var parts := Split(providerId, '.');
    JoinSplit(providerId, '.');
    SplitPiecesHaveNoSep(providerId, '.');
    if |parts| < 2 {
      assert providerId == parts[0];
    } else {
      var tail := if |parts| == 2 then "" else "." + Join(parts[2..], '.');
      assert Join(parts, '.') == parts[0] + "." + Join(parts[1..], '.');
      assert Join(parts[1..], '.') == parts[1] + tail;
      assert providerId == parts[0] + "." + parts[1] + tail;
      assert providerId[|parts[0]|] == '.';
    }
  }

  /** Conversely, every `<region>.<instance-id>` string parses back to its parts. */
  lemma ParseOfComposed(region: string, instanceId: string, rest: string)
    requires '.' !in region && '.' !in instanceId
    requires rest == "" || rest[0] == '.'
    ensures ParseProviderId(region + "." + instanceId + rest) == Ok((region, instanceId))
  {
    SplitAfterPrefix(region, instanceId + rest, '.');
    assert region + "." + instanceId + rest == region + ['.'] + (instanceId + rest);
    if rest == "" {
      SplitAfterPrefix(instanceId, "", '.');
      assert instanceId + rest == instanceId;
    } else {
      SplitAfterPrefix(instanceId, rest[1..], '.');
      assert instanceId + rest == instanceId + ['.'] + rest[1..];
    }
  }

  /** The example node `cn-hangzhou.i-abc123`. */
  lemma ParseExample()
    ensures ParseProviderId("cn-hangzhou.i-abc123") == Ok(("cn-hangzhou", "i-abc123"))
  {
    ParseOfComposed("cn-hangzhou", "i-abc123", "");
    assert "cn-hangzhou" + "." + "i-abc123" + "" == "cn-hangzhou.i-abc123";
  }
}
