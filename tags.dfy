/** The tag splitter `parseTags` (cmd/api.go, repeated with the same text in
    cmd/root.go): split the `--tags` flag on commas and trim every field. */
module Tags {
  import opened Strings

  /** Number of occurrences of `c` in `s`. */
  function Count(s: string, c: char): nat {
    if s == [] then 0 else (if s[0] == c then 1 else 0) + Count(s[1..], c)
  }

  /** Go's `strings.Split(s, ",")`: the maximal comma-free pieces between the
      commas, in order; the empty string gives one empty field. */
  function Split(s: string): (fields: seq<string>)
    ensures |fields| >= 1
  {
    if s == [] then [[]]
    else
      var rest := Split(s[1..]);
      if s[0] == ',' then [[]] + rest else [[s[0]] + rest[0]] + rest[1..]
  }

  /** Go's `strings.Join(fields, ",")`, the inverse of Split. */
  function Join(fields: seq<string>): string {
    if fields == [] then []
    else if |fields| == 1 then fields[0]
    else fields[0] + [','] + Join(fields[1..])
  }

  predicate CommaFree(s: string) {
    forall i :: 0 <= i < |s| ==> s[i] != ','
  }

  /** Split yields one more field than there are commas. */
  lemma {:induction false} SplitCount(s: string)
    ensures |Split(s)| == Count(s, ',') + 1
  {
    if s != [] {
      SplitCount(s[1..]);
    }
  }

  /** No field of Split contains a comma. */
  lemma {:induction false} SplitFieldsCommaFree(s: string)
    ensures forall i :: 0 <= i < |Split(s)| ==> CommaFree(Split(s)[i])
  {
    if s != [] {
      SplitFieldsCommaFree(s[1..]);
    }
  }

  /** Join puts a comma between the first field and the join of the rest. */
  lemma JoinCons(head: string, tail: seq<string>)
    requires tail != []
    ensures Join([head] + tail) == head + [','] + Join(tail)
  {
    assert ([head] + tail)[1..] == tail;
  }

  /** Prepending a character to the first field prepends it to the joined text. */
  lemma JoinPrepend(c: char, head: string, tail: seq<string>)
    ensures Join([[c] + head] + tail) == [c] + Join([head] + tail)
  {
    if tail != [] {
      JoinCons([c] + head, tail);
      JoinCons(head, tail);
      var j := Join(tail);
      assert ([c] + head) + [','] + j == [c] + (head + [','] + j);
    }
  }

  /** Joining the fields of Split with commas gives back the input. */
  lemma {:induction false} JoinSplit(s: string)
    ensures Join(Split(s)) == s
  {
    if s != [] {
      var rest := Split(s[1..]);
      JoinSplit(s[1..]);
      if s[0] == ',' {
        assert Split(s) == [[]] + rest;
        assert ([[]] + rest)[1..] == rest;
      } else {
        assert rest == [rest[0]] + rest[1..];
        JoinPrepend(s[0], rest[0], rest[1..]);
      }
      assert s == [s[0]] + s[1..];
    }
  }

  /** A comma-free string is a single field. */
  lemma {:induction false} SplitCommaFree(f: string)
    requires CommaFree(f)
    ensures Split(f) == [f]
  {
    if f != [] {
      SplitCommaFree(f[1..]);
      assert [f[0]] + f[1..] == f;
    }
  }

  /** A comma ends the first field exactly when that field is comma-free. */
  lemma {:induction false} SplitAtComma(f: string, t: string)
    requires CommaFree(f)
    ensures Split(f + [','] + t) == [f] + Split(t)
  {
    if f == [] {
      assert f + [','] + t == [','] + t;
      assert ([','] + t)[1..] == t;
    } else {
      var s := f + [','] + t;
      assert s[0] == f[0];
      assert s[1..] == f[1..] + [','] + t;
      SplitAtComma(f[1..], t);
      assert [f[0]] + f[1..] == f;
    }
  }

  /** Splitting a comma-joined list of comma-free fields gives back the list. */
  lemma {:induction false} SplitJoin(fields: seq<string>)
    requires |fields| >= 1
    requires forall i :: 0 <= i < |fields| ==> CommaFree(fields[i])
    ensures Split(Join(fields)) == fields
  {
    if |fields| == 1 {
      SplitCommaFree(fields[0]);
    } else {
      SplitJoin(fields[1..]);
      SplitAtComma(fields[0], Join(fields[1..]));
      assert [fields[0]] + fields[1..] == fields;
    }
  }

  /** The tag list of the flag text: empty for a blank flag, otherwise every
      comma-separated field trimmed, in order, empties and duplicates kept. */
  function TagList(tagsStr: string): (tags: seq<string>)
    ensures tags == [] <==> IsBlank(tagsStr)
    ensures forall i :: 0 <= i < |tags| ==> IsTrimmed(tags[i])
  {
    if TrimSpace(tagsStr) == [] then []
    else
      var fields := Split(tagsStr);
      seq(|fields|, i requires 0 <= i < |fields| => TrimSpace(fields[i]))
  }

  /** The loop of `parseTags`: rewrites every field of the slice in place with
      its trimmed form. */
  method TrimFields(fields: seq<string>) returns (tags: seq<string>)
    ensures |tags| == |fields|
    ensures forall k :: 0 <= k < |tags| ==> tags[k] == TrimSpace(fields[k])
  {
    var a := new string[|fields|](i requires 0 <= i < |fields| => fields[i]);
    var i := 0;
    while i < a.Length
      invariant 0 <= i <= a.Length
      invariant forall k :: 0 <= k < i ==> a[k] == TrimSpace(fields[k])
      invariant forall k :: i <= k < a.Length ==> a[k] == fields[k]
    {
      a[i] := TrimSpace(a[i]);
      i := i + 1;
    }
    tags := a[..];
  }

  /** `parseTags`: a blank flag gives no tags; otherwise the flag is split on
      commas and every field trimmed in place. */
  method ParseTags(tagsStr: string) returns (tags: seq<string>)
    ensures tags == TagList(tagsStr)
  {
    if TrimSpace(tagsStr) == [] {
      return [];
    }
    tags := TrimFields(Split(tagsStr));
    TagListOf(tagsStr, tags);
  }

  /** A non-blank flag gives one tag per comma plus one, and tag i is the i-th
      comma-separated field with its surrounding white space removed. */
  lemma TagListFields(tagsStr: string)
    requires !IsBlank(tagsStr)
    ensures |TagList(tagsStr)| == Count(tagsStr, ',') + 1
    ensures forall i :: 0 <= i < |TagList(tagsStr)| ==>
              TagList(tagsStr)[i] == TrimSpace(Split(tagsStr)[i])
  {
    SplitCount(tagsStr);
  }

  /** The joined text of a list that is neither empty nor the single empty tag
      has a character that is not white space. */
  lemma JoinNotBlank(tags: seq<string>)
    requires forall i :: 0 <= i < |tags| ==> IsTrimmed(tags[i])
    requires tags != [] && tags != [[]]
    ensures !IsBlank(Join(tags))
  {
    var s := Join(tags);
    if |tags| == 1 {
      assert s[0] == tags[0][0];
    } else {
      assert s == tags[0] + [','] + Join(tags[1..]);
      assert s[|tags[0]|] == ',';
    }
  }

  /** Round trip: a list of trimmed comma-free tags, written as a comma-separated
      flag, is parsed back to the same list. The one list that does not survive
      is the single empty tag, whose flag text is blank. */
  lemma TagListJoin(tags: seq<string>)
    requires forall i :: 0 <= i < |tags| ==> CommaFree(tags[i]) && IsTrimmed(tags[i])
    requires tags != [[]]
    ensures TagList(Join(tags)) == tags
  {
    if tags != [] {
      SplitJoin(tags);
      JoinNotBlank(tags);
      TagListOfTrimmedFields(Join(tags));
    }
  }

  /** When every comma-separated field is already trimmed, the tags are the
      fields themselves. */
  lemma TagListOfTrimmedFields(s: string)
    requires !IsBlank(s)
    requires forall i :: 0 <= i < |Split(s)| ==> IsTrimmed(Split(s)[i])
    ensures TagList(s) == Split(s)
  {
    var fields := Split(s);
    var r := TagList(s);
    assert |r| == |fields|;
    forall i | 0 <= i < |fields| ensures r[i] == fields[i] {
      assert [] + fields[i] + [] == fields[i];
      TrimSpaceOf([], fields[i], []);
    }
  }

  /** The tags of a non-blank flag are the trimmed fields, whatever list they
      are written as. */
  lemma TagListOf(s: string, tags: seq<string>)
    requires !IsBlank(s)
    requires |tags| == |Split(s)|
    requires forall i :: 0 <= i < |tags| ==> TrimSpace(Split(s)[i]) == tags[i]
    ensures TagList(s) == tags
  {
  }
}
