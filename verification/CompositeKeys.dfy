/** The text of composite keys, and why a partial composite key query is exact. */
module CompositeKeys {
  import opened Wrappers
  import opened Fabric

  const MIN_RUNE := '\0'
  const MAX_RUNE := '\U{10FFFF}'

  predicate ValidAttribute(s: string) {
    forall i :: 0 <= i < |s| ==> s[i] != MIN_RUNE && s[i] != MAX_RUNE
  }

  predicate ValidAttributes(parts: seq<string>) {
    forall i :: 0 <= i < |parts| ==> ValidAttribute(parts[i])
  }

  /** Each part ended by U+0000. */
  function Join(parts: seq<string>): string {
    if parts == [] then "" else parts[0] + [MIN_RUNE] + Join(parts[1..])
  }

  function CompositeKey(objectType: string, attributes: seq<string>): Option<string> {
    if ValidAttributes([objectType] + attributes) then Some([MIN_RUNE] + Join([objectType] + attributes)) else None
  }

  /** The text in full: a leading U+0000, then each part followed by one; and no text when a
      part has U+0000 or U+10FFFF in it. */
  lemma {:induction false} CompositeKeyText(objectType: string, attributes: seq<string>)
    ensures CompositeKey(objectType, attributes).None? <==>
            exists part: string :: part in [objectType] + attributes && ('\0' in part || '\U{10FFFF}' in part)
    ensures attributes == [] && CompositeKey(objectType, attributes).Some? ==>
            CompositeKey(objectType, attributes).value == "\0" + objectType + "\0"
    ensures attributes != [] && CompositeKey(objectType, attributes).Some? ==>
            var n := |attributes| - 1;
            && CompositeKey(objectType, attributes[..n]).Some?
            && CompositeKey(objectType, attributes).value
            == CompositeKey(objectType, attributes[..n]).value + attributes[n] + "\0"
  {
    var parts := [objectType] + attributes;
    if ValidAttributes(parts) {
      forall part | part in parts
        ensures '\0' !in part && '\U{10FFFF}' !in part
      {
        var i :| 0 <= i < |parts| && parts[i] == part;
        assert ValidAttribute(parts[i]);
      }
      if attributes == [] {
        assert Join(parts) == objectType + [MIN_RUNE] + Join(parts[1..]);
      } else {
        var n := |attributes| - 1;
        var front := [objectType] + attributes[..n];
        assert forall i :: 0 <= i < |front| ==> front[i] == parts[i];
        assert parts == front + [attributes[n]];
        JoinAppend(front, attributes[n]);
      }
    } else {
      var i :| 0 <= i < |parts| && !ValidAttribute(parts[i]);
      assert parts[i] in parts;
    }
  }

  method CreateCompositeKey(objectType: string, attributes: seq<string>) returns (key: Option<string>)
    ensures key == CompositeKey(objectType, attributes)
  {
    if !ValidAttribute(objectType) {
      assert !ValidAttribute(([objectType] + attributes)[0]);
      return None;
    }
    var text := [MIN_RUNE] + objectType + [MIN_RUNE];
    for i := 0 to |attributes|
      invariant ValidAttributes([objectType] + attributes[..i])
      invariant text == [MIN_RUNE] + Join([objectType] + attributes[..i])
    {
      if !ValidAttribute(attributes[i]) {
        assert !ValidAttribute(([objectType] + attributes)[i + 1]);
        return None;
      }
      var parts := [objectType] + attributes[..i];
      assert [objectType] + attributes[..i + 1] == parts + [attributes[i]];
      JoinAppend(parts, attributes[i]);
      text := text + (attributes[i] + [MIN_RUNE]);
    }
    assert attributes[..|attributes|] == attributes;
    key := Some(text);
  }

  lemma {:induction false} JoinAppend(parts: seq<string>, last: string)
    ensures Join(parts + [last]) == Join(parts) + (last + [MIN_RUNE])
  {
    if parts == [] {
      assert [last] == parts + [last];
    } else {
      assert (parts + [last])[1..] == parts[1..] + [last];
      JoinAppend(parts[1..], last);
    }
  }

  /** The parts of `text` that U+0000 ends, the first continuing `current`. */
  function Pieces(current: string, text: string): seq<string>
    decreases |text|
  {
    if text == "" then []
    else if text[0] == MIN_RUNE then [current] + Pieces("", text[1..])
    else Pieces(current + [text[0]], text[1..])
  }

  function Components(key: string): seq<string> {
    if key == "" then [] else Pieces("", key[1..])
  }

  /** The object type and the attributes; `None` where there is no component to be the
      object type, and the loop's caller indexes past the end. */
  method SplitCompositeKey(key: string) returns (r: Option<(string, seq<string>)>)
    ensures r == if Components(key) == [] then None else Some((Components(key)[0], Components(key)[1..]))
  {
    var componentIndex := 1;
    var components: seq<string> := [];
    var i := 1;
    assert key != "" ==> key[1..1] == "";
    while i < |key|
      invariant key != "" ==> 1 <= componentIndex <= i <= |key|
      invariant key != "" ==> components + Pieces(key[componentIndex..i], key[i..]) == Components(key)
      invariant key == "" ==> components == []
    {
      assert key[i..][1..] == key[i + 1..];
      if key[i] == MIN_RUNE {
        assert components + ([key[componentIndex..i]] + Pieces("", key[i + 1..]))
            == components + [key[componentIndex..i]] + Pieces("", key[i + 1..]);
        components := components + [key[componentIndex..i]];
        componentIndex := i + 1;
        assert key[i + 1..i + 1] == "";
      } else {
        assert key[componentIndex..i] + [key[i]] == key[componentIndex..i + 1];
      }
      i := i + 1;
    }
    assert key != "" ==> key[i..] == "" && components + [] == components;
    if |components| == 0 {
      return None;
    }
    r := Some((components[0], components[1..]));
  }

  lemma {:induction false} PieceOf(current: string, part: string, rest: string)
    requires ValidAttribute(part)
    ensures Pieces(current, part + [MIN_RUNE] + rest) == [current + part] + Pieces("", rest)
    decreases |part|
  {
    var text := part + [MIN_RUNE] + rest;
    if part == "" {
      assert text[1..] == rest && current + part == current;
    } else {
      assert text[1..] == part[1..] + [MIN_RUNE] + rest;
      assert current + [part[0]] + part[1..] == current + part;
      PieceOf(current + [part[0]], part[1..], rest);
    }
  }

  /** Splitting a composite key gives back the parts it was made of. */
  lemma {:induction false} SplitUndoesJoin(parts: seq<string>)
    requires ValidAttributes(parts)
    ensures Pieces("", Join(parts)) == parts
  {
    if parts != [] {
      PieceOf("", parts[0], Join(parts[1..]));
      SplitUndoesJoin(parts[1..]);
      assert "" + parts[0] == parts[0];
    }
  }

  lemma {:induction false} PiecesAreExact(current: string, text: string) returns (tail: string)
    requires '\0' !in current
    ensures current + text == Join(Pieces(current, text)) + tail && '\0' !in tail
    ensures forall piece :: piece in Pieces(current, text) ==> '\0' !in piece
    decreases |text|
  {
    if text == "" {
      tail := current;
    } else {
      if text[0] == MIN_RUNE {
        tail := PiecesAreExact("", text[1..]);
        assert "" + text[1..] == text[1..];
        assert current + text == current + [MIN_RUNE] + text[1..];
        assert ([current] + Pieces("", text[1..]))[1..] == Pieces("", text[1..]);
      } else {
        tail := PiecesAreExact(current + [text[0]], text[1..]);
        assert current + text == current + [text[0]] + text[1..];
      }
    }
  }

  /** Splitting any text loses only its first character, the separators and what follows the
      last of them. */
  lemma {:induction false} SplitsExactly(key: string) returns (tail: string)
    requires key != ""
    ensures key[1..] == Join(Components(key)) + tail && '\0' !in tail
    ensures forall part :: part in Components(key) ==> '\0' !in part
  {
    tail := PiecesAreExact("", key[1..]);
  }

  /** So a created key splits into its object type and attributes again. */
  lemma {:induction false} SplitUndoesCreate(objectType: string, attributes: seq<string>)
    requires CompositeKey(objectType, attributes).Some?
    ensures Components(CompositeKey(objectType, attributes).value) == [objectType] + attributes
  {
    SplitUndoesJoin([objectType] + attributes);
    var text := Join([objectType] + attributes);
    assert ([MIN_RUNE] + text)[1..] == text;
  }

  lemma {:induction false} PiecesOfPrefix(current: string, text: string, more: string)
    ensures Pieces(current, text) <= Pieces(current, text + more)
    decreases |text|
  {
    if text != "" {
      assert (text + more)[1..] == text[1..] + more;
      PiecesOfPrefix(if text[0] == MIN_RUNE then "" else current + [text[0]], text[1..], more);
    }
  }

  lemma {:induction false} JoinOfConcat(a: seq<string>, b: seq<string>)
    ensures Join(a + b) == Join(a) + Join(b)
  {
    if a == [] {
      assert a + b == b;
    } else {
      assert (a + b)[1..] == a[1..] + b;
      JoinOfConcat(a[1..], b);
    }
  }

  /** Texts are prefixes of one another exactly when the parts are. */
  lemma {:induction false} JoinPrefix(a: seq<string>, b: seq<string>)
    requires ValidAttributes(a) && ValidAttributes(b)
    ensures Join(a) <= Join(b) <==> a <= b
  {
    if a <= b {
      JoinOfConcat(a, b[|a|..]);
      assert a + b[|a|..] == b;
    }
    if Join(a) <= Join(b) {
      PiecesOfPrefix("", Join(a), Join(b)[|Join(a)|..]);
      assert Join(a) + Join(b)[|Join(a)|..] == Join(b);
      SplitUndoesJoin(a);
      SplitUndoesJoin(b);
    }
  }

  /** The range a partial query scans, by code point order, is the keys with its prefix. */
  lemma {:induction false} RangeIsPrefix(start: string, key: string)
    requires forall i :: 0 <= i < |key| ==> key[i] != MAX_RUNE
    ensures !Before(key, start) && Before(key, start + [MAX_RUNE]) <==> start <= key
  {
    if start == "" {
      assert start + [MAX_RUNE] == [MAX_RUNE];
      if key != "" {
        assert key[0] < MAX_RUNE;
      }
    } else if key != "" {
      assert (start + [MAX_RUNE])[1..] == start[1..] + [MAX_RUNE];
      RangeIsPrefix(start[1..], key[1..]);
      assert start <= key <==> start[0] == key[0] && start[1..] <= key[1..] by {
        if start[0] == key[0] && start[1..] <= key[1..] {
          assert start == [start[0]] + start[1..] && key == [key[0]] + key[1..];
        }
      }
    }
  }

  lemma {:induction false} JoinHasNoMaxRune(parts: seq<string>)
    requires ValidAttributes(parts)
    ensures forall i :: 0 <= i < |Join(parts)| ==> Join(parts)[i] != MAX_RUNE
  {
    if parts != [] {
      JoinHasNoMaxRune(parts[1..]);
    }
  }

  /** A partial composite key query delivers a composite key exactly when `Matches` says
      so: same index, and the queried attributes a prefix of the key's. */
  lemma {:induction false} PartialQueryIsExact(space: Space, index: string, prefix: seq<string>, objectType: string,
                                               attributes: seq<string>)
    requires ValidAttributes([index] + prefix) && ValidAttributes([objectType] + attributes)
    ensures var start := CompositeKey(index, prefix).value;
            var key := CompositeKey(objectType, attributes).value;
            !Before(key, start) && Before(key, start + [MAX_RUNE]) <==>
            Matches(PartialKey(space, index, prefix), Loc(space, Composite(objectType, attributes)))
  {
    var a, b := [index] + prefix, [objectType] + attributes;
    JoinHasNoMaxRune(b);
    RangeIsPrefix([MIN_RUNE] + Join(a), [MIN_RUNE] + Join(b));
    assert [MIN_RUNE] + Join(a) <= [MIN_RUNE] + Join(b) <==> Join(a) <= Join(b) by {
      assert ([MIN_RUNE] + Join(a))[1..] == Join(a) && ([MIN_RUNE] + Join(b))[1..] == Join(b);
    }
    JoinPrefix(a, b);
    assert a <= b <==> index == objectType && prefix <= attributes by {
      assert a[0] == index && b[0] == objectType && a[1..] == prefix && b[1..] == attributes;
    }
  }

  /** Distinct composite keys have distinct texts, and none is the text of a plain key. */
  lemma {:induction false} CompositeKeysDiffer(objectType: string, attributes: seq<string>, otherType: string,
                                               others: seq<string>)
    requires CompositeKey(objectType, attributes).Some?
    requires CompositeKey(objectType, attributes) == CompositeKey(otherType, others)
    ensures objectType == otherType && attributes == others
    ensures CompositeKey(objectType, attributes).value[0] == MIN_RUNE
  {
    var a, b := [objectType] + attributes, [otherType] + others;
    var text := CompositeKey(objectType, attributes).value;
    assert text[1..] == Join(a) && text[1..] == Join(b);
    SplitUndoesJoin(a);
    SplitUndoesJoin(b);
    assert a[1..] == attributes && b[1..] == others;
  }
}
