/** Queue keys of the form "namespace/name" (or "name" when the namespace is
    empty), as produced by client-go's `MetaNamespaceKeyFunc` and taken apart
    by `SplitMetaNamespaceKey`. */
module Keys {
  import opened Results

  /** `strings.Split(s, "/")`: the slash-free pieces of `s`; never empty. */
  function Split(s: string): (parts: seq<string>)
    ensures |parts| >= 1
    ensures forall i :: 0 <= i < |parts| ==> '/' !in parts[i]
  {
    if s == [] then [""]
    else
      var rest := Split(s[1..]);
      if s[0] == '/' then [""] + rest
      else [[s[0]] + rest[0]] + rest[1..]
  }

  /** There is one more piece than there are slashes. */
  lemma {:induction false} SplitCount(s: string)
    ensures |Split(s)| == multiset(s)['/'] + 1
  {
    if s != [] {
      assert s == [s[0]] + s[1..];
      SplitCount(s[1..]);
    }
  }

  /** `strings.Join(parts, "/")`. */
  function Join(parts: seq<string>): string
    requires |parts| >= 1
  {
    if |parts| == 1 then parts[0] else parts[0] + "/" + Join(parts[1..])
  }

  /** Splitting loses nothing: joining the pieces gives the string back. */
  lemma {:induction false} JoinSplit(s: string)
    ensures Join(Split(s)) == s
  {
    if s != [] {
      JoinSplit(s[1..]);
      var rest := Split(s[1..]);
      if s[0] != '/' && |rest| > 1 {
        assert Join(Split(s)) == ([s[0]] + rest[0]) + "/" + Join(rest[1..]);
      }
    }
  }

  /** One step of `Split` on a character that is not a slash. */
  lemma SplitCons(c: char, t: string)
    requires c != '/'
    ensures Split([c] + t) == [[c] + Split(t)[0]] + Split(t)[1..]
  {
    assert ([c] + t)[1..] == t;
  }

  /** A slash-free prefix becomes part of the first piece. */
  lemma {:induction false} SplitPrefix(a: string, rest: string)
    requires '/' !in a
    ensures Split(a + rest) == [a + Split(rest)[0]] + Split(rest)[1..]
  {
    var p := Split(rest);
    if a == [] {
      assert a + rest == rest;
      assert a + p[0] == p[0];
      assert p == [p[0]] + p[1..];
    } else {
      SplitPrefix(a[1..], rest);
      var r := Split(a[1..] + rest);
      assert a + rest == [a[0]] + (a[1..] + rest);
      SplitCons(a[0], a[1..] + rest);
      assert [a[0]] + r[0] == a + p[0] by {
        assert a == [a[0]] + a[1..];
      }
    }
  }

  lemma SplitOfName(name: string)
    requires '/' !in name
    ensures Split(name) == [name]
  {
    SplitPrefix(name, "");
    assert name + "" == name;
  }

  lemma SplitOfPair(namespace: string, name: string)
    requires '/' !in namespace && '/' !in name
    ensures Split(namespace + "/" + name) == [namespace, name]
  {
    var tail := "/" + name;
    assert tail[0] == '/' && tail[1..] == name;
    SplitOfName(name);
    assert Split(tail) == [""] + [name];
    SplitPrefix(namespace, tail);
    assert namespace + "/" + name == namespace + tail;
    assert namespace + "" == namespace;
  }

  /** The key `MetaNamespaceKeyFunc` gives an object with this namespace and name. */
  function MetaNamespaceKey(namespace: string, name: string): string
  {
    if |namespace| > 0 then namespace + "/" + name else name
  }

  /** `cache.SplitMetaNamespaceKey`: a key with no slash is a bare name, one
      with one slash is namespace and name, anything else is malformed. */
  function SplitMetaNamespaceKey(key: string): (r: Result<(string, string)>)
    ensures r.Ok? <==> multiset(key)['/'] <= 1
    ensures r.Err? ==> r.error == KeyFormatError(key)
    ensures r.Ok? ==> '/' !in r.value.0 && '/' !in r.value.1
    ensures r.Ok? && multiset(key)['/'] == 0 ==> r.value == ("", key)
    ensures r.Ok? && multiset(key)['/'] == 1 ==> key == r.value.0 + "/" + r.value.1
  {
    var parts := Split(key);
    JoinSplit(key);
    SplitCount(key);
    if |parts| == 1 then Ok(("", parts[0]))
    else if |parts| == 2 then
      assert Join(parts) == parts[0] + "/" + parts[1];
      Ok((parts[0], parts[1]))
    else Err(KeyFormatError(key))
  }

  /** A key built from a slash-free namespace and name splits back into them. */
  lemma SplitMetaNamespaceKeyInverts(namespace: string, name: string)
    requires '/' !in namespace && '/' !in name
    ensures SplitMetaNamespaceKey(MetaNamespaceKey(namespace, name)) == Ok((namespace, name))
  {
    if |namespace| > 0 {
      SplitOfPair(namespace, name);
    } else {
      SplitOfName(name);
    }
  }
}
