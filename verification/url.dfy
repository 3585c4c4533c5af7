/**
 * The string primitives the route codec is built from: `Array.prototype.join`
 * on the encoding side, and on the decoding side the splitting of a location
 * into path segments and the `status` search parameter.
 */
module Url {
  import opened RepoRoutes

  /** `parts.join([sep])`: the parts with one separator between neighbours. */
  function Join(parts: seq<string>, sep: char): (s: string)
    ensures |parts| == 1 ==> s == parts[0]
  {
    if |parts| == 0 then ""
    else if |parts| == 1 then parts[0]
    else parts[0] + [sep] + Join(parts[1..], sep)
  }

  /** `s.split(sep)` for a one-character separator: never empty, and no part holds `sep`. */
  function Split(s: string, sep: char): (parts: seq<string>)
    ensures |parts| >= 1
    ensures forall i :: 0 <= i < |parts| ==> sep !in parts[i]
  {
    if |s| == 0 then [""]
    else
      var rest := Split(s[1..], sep);
      if s[0] == sep then [""] + rest
      else [[s[0]] + rest[0]] + rest[1..]
  }

  /**
   * Cuts `s` at the first occurrence of `c`: what comes before it, and what
   * comes after it if `c` occurs at all.
   */
  function Cut(s: string, c: char): (r: (string, Option<string>))
    ensures c !in r.0
    ensures r.1.None? <==> c !in s
    ensures r.1.Some? ==> s == r.0 + [c] + r.1.value
    ensures r.1.None? ==> r.0 == s
  {
    if |s| == 0 then ("", None)
    else if s[0] == c then ("", Some(s[1..]))
    else
      var (before, after) := Cut(s[1..], c);
      ([s[0]] + before, after)
  }

  /**
   * `new URLSearchParams(query).get(key)`: absent without a query or without a
   * pair named `key`, and otherwise the value of the first pair of that name.
   */
  function GetParam(query: Option<string>, key: string): (v: Option<string>)
    ensures query.None? ==> v.None?
    ensures query.Some? ==> (v.None? <==> NoPairNamed(Split(query.value, '&'), key))
    ensures v.Some? ==> var pairs := Split(query.value, '&');
      exists i :: 0 <= i < |pairs| && PairName(pairs[i]) == key && NoPairNamed(pairs[..i], key)
                  && v.value == PairValue(pairs[i])
  {
    match query
    case None => None
    case Some(q) =>
      FirstValueIsFirst(Split(q, '&'), key);
      FirstValue(Split(q, '&'), key)
  }

  /** The name of a `name=value` pair: what comes before its first '='. */
  function PairName(pair: string): string
  {
    Cut(pair, '=').0
  }

  /** The value of a pair: what follows its first '=', or "" when it has none. */
  function PairValue(pair: string): string
  {
    match Cut(pair, '=').1
    case None => ""
    case Some(v) => v
  }

  predicate NoPairNamed(pairs: seq<string>, key: string)
  {
    forall j :: 0 <= j < |pairs| ==> PairName(pairs[j]) != key
  }

  function FirstValue(pairs: seq<string>, key: string): (v: Option<string>)
  {
    if |pairs| == 0 then None
    else if PairName(pairs[0]) == key then Some(PairValue(pairs[0]))
    else FirstValue(pairs[1..], key)
  }

  /** `FirstValue` finds the first pair named `key`, and nothing when there is none. */
  lemma {:induction false} FirstValueIsFirst(pairs: seq<string>, key: string)
    ensures FirstValue(pairs, key).None? <==> NoPairNamed(pairs, key)
    ensures FirstValue(pairs, key).Some? ==>
      exists i :: 0 <= i < |pairs| && PairName(pairs[i]) == key && NoPairNamed(pairs[..i], key)
                  && FirstValue(pairs, key).value == PairValue(pairs[i])
  {
    if |pairs| == 0 {
    } else if PairName(pairs[0]) == key {
      assert NoPairNamed(pairs[..0], key);
    } else {
      var rest := pairs[1..];
      FirstValueIsFirst(rest, key);
      if NoPairNamed(rest, key) {
        forall j | 0 <= j < |pairs| ensures PairName(pairs[j]) != key {
          if j > 0 { assert pairs[j] == rest[j - 1]; }
        }
      } else {
        assert !NoPairNamed(pairs, key) by {
          var j :| 0 <= j < |rest| && PairName(rest[j]) == key;
          assert pairs[j + 1] == rest[j];
        }
        var i :| 0 <= i < |rest| && PairName(rest[i]) == key && NoPairNamed(rest[..i], key)
                 && FirstValue(rest, key).value == PairValue(rest[i]);
        assert pairs[i + 1] == rest[i];
        var prefix := pairs[..i + 1];
        forall j | 0 <= j < |prefix| ensures PairName(prefix[j]) != key {
          if j > 0 { assert prefix[j] == rest[..i][j - 1]; }
        }
      }
    }
  }

  /**
   * The location a router hands to the decoder: the path split on '/', and
   * the `status` search parameter of the query after the first '?'.
   */
  function ParseLocation(url: string): (r: (seq<string>, Option<string>))
    ensures |r.0| >= 1
  {
    var (path, query) := Cut(url, '?');
    (Split(path, '/'), GetParam(query, "status"))
  }

  // ---------------------------------------------------------------- lemmas

  /** One step of `join`: the head, a separator, then the join of the rest. */
  lemma JoinCons(head: string, tail: seq<string>, sep: char)
    requires |tail| >= 1
    ensures Join([head] + tail, sep) == head + [sep] + Join(tail, sep)
  {
    assert ([head] + tail)[1..] == tail;
  }

  /** `[a, b, c].join(sep)`. */
  lemma JoinThree(a: string, b: string, c: string, sep: char)
    ensures Join([a, b, c], sep) == a + [sep] + b + [sep] + c
  {
    JoinCons(b, [c], sep);
    assert [a, b, c] == [a] + [b, c];
    JoinCons(a, [b, c], sep);
  }

  /** `[a, b, c, d].join(sep)`. */
  lemma JoinFour(a: string, b: string, c: string, d: string, sep: char)
    ensures Join([a, b, c, d], sep) == a + [sep] + b + [sep] + c + [sep] + d
  {
    JoinThree(b, c, d, sep);
    assert [a, b, c, d] == [a] + [b, c, d];
    JoinCons(a, [b, c, d], sep);
  }

  /** A character in front of the first part is in front of the whole join. */
  lemma JoinPrefixChar(c: char, w: string, tail: seq<string>, sep: char)
    requires |tail| >= 1
    ensures Join([[c] + w] + tail, sep) == [c] + Join([w] + tail, sep)
  {
    JoinCons([c] + w, tail, sep);
    JoinCons(w, tail, sep);
  }

  /** Splitting a string that holds no separator gives that string alone. */
  lemma {:induction false} SplitNoSep(s: string, sep: char)
    requires sep !in s
    ensures Split(s, sep) == [s]
  {
    if |s| > 0 {
      SplitNoSep(s[1..], sep);
      assert [s[0]] + s[1..] == s;
    }
  }

  /** A separator after a separator-free prefix ends the first part. */
  lemma {:induction false} SplitCons(a: string, sep: char, b: string)
    requires sep !in a
    ensures Split(a + [sep] + b, sep) == [a] + Split(b, sep)
  {
    if |a| == 0 {
      assert a + [sep] + b == [sep] + b;
      assert ([sep] + b)[1..] == b;
    } else {
      var s := a + [sep] + b;
      assert s[0] == a[0] && s[1..] == a[1..] + [sep] + b;
      SplitCons(a[1..], sep, b);
      assert [a[0]] + a[1..] == a;
    }
  }

  /** `split` undoes `join` when no part holds the separator. */
  lemma {:induction false} SplitJoin(parts: seq<string>, sep: char)
    requires |parts| >= 1
    requires forall i :: 0 <= i < |parts| ==> sep !in parts[i]
    ensures Split(Join(parts, sep), sep) == parts
  {
    if |parts| == 1 {
      SplitNoSep(parts[0], sep);
    } else {
      SplitJoin(parts[1..], sep);
      SplitCons(parts[0], sep, Join(parts[1..], sep));
      assert [parts[0]] + parts[1..] == parts;
    }
  }

  /** `join` undoes `split`: no character of the input is lost or added. */
  lemma {:induction false} JoinSplit(s: string, sep: char)
    ensures Join(Split(s, sep), sep) == s
  {
    if |s| > 0 {
      JoinSplit(s[1..], sep);
      var rest := Split(s[1..], sep);
      if s[0] == sep {
        assert ([""] + rest)[1..] == rest;
      } else {
        var parts := [[s[0]] + rest[0]] + rest[1..];
        assert parts[1..] == rest[1..];
        if |rest| > 1 {
          assert Join(rest, sep) == rest[0] + [sep] + Join(rest[1..], sep);
        }
      }
      assert [s[0]] + s[1..] == s;
    }
  }

  /** A character that is neither the separator nor in any part is not in the joined string. */
  lemma {:induction false} JoinAvoids(parts: seq<string>, sep: char, c: char)
    requires c != sep
    requires forall i :: 0 <= i < |parts| ==> c !in parts[i]
    ensures c !in Join(parts, sep)
  {
    if |parts| > 1 {
      JoinAvoids(parts[1..], sep, c);
    }
  }

  /** Cutting at the first `c` of `a + [c] + b`, where `a` holds no `c`, gives back `a` and `b`. */
  lemma {:induction false} CutAt(a: string, c: char, b: string)
    requires c !in a
    ensures Cut(a + [c] + b, c) == (a, Some(b))
  {
    var s := a + [c] + b;
    if |a| > 0 {
      assert s[0] == a[0] && s[1..] == a[1..] + [c] + b;
      CutAt(a[1..], c, b);
      assert [a[0]] + a[1..] == a;
    } else {
      assert s[1..] == b;
    }
  }

  /** A query that is exactly `key=value`, with a value free of '&', yields that value. */
  lemma SingleParam(key: string, value: string)
    requires '=' !in key && '&' !in key && '&' !in value
    ensures GetParam(Some(key + "=" + value), key) == Some(value)
  {
    var q := key + "=" + value;
    assert '&' !in q by {
      forall i | 0 <= i < |q| ensures q[i] != '&' {
        if i < |key| { assert q[i] == key[i]; }
        else if i > |key| { assert q[i] == value[i - |key| - 1]; }
      }
    }
    SplitNoSep(q, '&');
    CutAt(key, '=', value);
  }

  /** A location without a query: its path segments, and no status. */
  lemma ParsePathOnly(path: string)
    requires '?' !in path
    ensures ParseLocation(path) == (Split(path, '/'), None)
  {
  }

  /** A location whose query is `status=<v>`: its path segments, and `v`. */
  lemma ParseStatusQuery(path: string, v: string)
    requires '?' !in path && '&' !in v
    ensures ParseLocation(path + "?status=" + v) == (Split(path, '/'), Some(v))
  {
    var q := "status" + "=" + v;
    assert "status=" + v == q;
    assert path + "?status=" + v == path + ['?'] + q;
    CutAt(path, '?', q);
    SingleParam("status", v);
  }
}
