/** Go's `path.Join` and `path.Clean` (slash-separated paths), which
    `common/did.go` uses to build a document's file path and a key URL.
    Cleaning is lexical: empty and "." elements go, ".." removes the element
    before it when there is one to remove, a rooted path drops a leading
    "..", and an empty result is ".". */
module Paths {

  /** The elements of `p` between its slashes; "" has one empty element. */
  function Split(p: string): (r: seq<string>)
    ensures |r| >= 1
    ensures forall i :: 0 <= i < |r| ==> '/' !in r[i]
    decreases |p|
  {
    if |p| == 0 then [""]
    else
      var rest := Split(p[1..]);
      if p[0] == '/' then [""] + rest
      else [[p[0]] + rest[0]] + rest[1..]
  }

  /** `strings.Join(elems, "/")`. */
  function JoinSlash(elems: seq<string>): string
  {
    if |elems| == 0 then ""
    else if |elems| == 1 then elems[0]
    else elems[0] + "/" + JoinSlash(elems[1..])
  }

  /** One element of `path.Clean`'s loop, applied to the elements kept so far. */
  function Push(stack: seq<string>, e: string, rooted: bool): seq<string>
  {
    if e == "" || e == "." then stack
    else if e == ".." then
      if |stack| > 0 && stack[|stack| - 1] != ".." then stack[..|stack| - 1]
      else if rooted then stack
      else stack + [".."]
    else stack + [e]
  }

  /** The elements kept after processing `elems` left to right from `stack`. */
  function Resolve(stack: seq<string>, elems: seq<string>, rooted: bool): seq<string>
  {
    if |elems| == 0 then stack
    else Push(Resolve(stack, elems[..|elems| - 1], rooted), elems[|elems| - 1], rooted)
  }

  /** `path.Clean`. */
  function Clean(p: string): string
  {
    if p == "" then "."
    else
      var rooted := p[0] == '/';
      var body := JoinSlash(Resolve([], Split(p), rooted));
      if rooted then "/" + body
      else if body == "" then "." else body
  }

  /** `path.Join`: leading empty elements are skipped, the rest are joined
      with slashes and cleaned; all-empty input gives "". */
  function Join(elems: seq<string>): string
  {
    if |elems| == 0 then ""
    else if elems[0] == "" then Join(elems[1..])
    else Clean(JoinSlash(elems))
  }

  predicate EndsWith(s: string, suffix: string)
  {
    |suffix| <= |s| && s[|s| - |suffix|..] == suffix
  }

  /** An element that cleaning keeps as it is. */
  predicate IsName(e: string)
  {
    e != "" && e != "." && e != ".."
  }

  /** The kept elements as `path.Clean` leaves them: real names, with ".."
      only in a leading run, and none at all under a root. */
  ghost predicate Normal(stack: seq<string>, rooted: bool)
  {
    && (forall i :: 0 <= i < |stack| ==> stack[i] != "" && stack[i] != "." && '/' !in stack[i])
    && (forall i, j :: 0 <= i < j < |stack| && stack[j] == ".." ==> stack[i] == "..")
    && (rooted ==> forall i :: 0 <= i < |stack| ==> stack[i] != "..")
  }

  lemma SplitNoSlash(p: string)
    requires '/' !in p
    ensures Split(p) == [p]
    decreases |p|
  {
    if |p| > 0 {
      assert '/' !in p[1..];
      SplitNoSlash(p[1..]);
      assert [p[0]] + p[1..] == p;
    }
  }

  /** Splitting at a slash splits the two sides independently. */
  lemma {:induction false} SplitAppend(a: string, b: string)
    ensures Split(a + "/" + b) == Split(a) + Split(b)
    decreases |a|
  {
    if |a| == 0 {
      assert a + "/" + b == "/" + b;
      assert ("/" + b)[1..] == b;
    } else {
      assert (a + "/" + b)[1..] == a[1..] + "/" + b;
      assert (a + "/" + b)[0] == a[0];
      SplitAppend(a[1..], b);
    }
  }

  /** Appending slash-free text extends the last element only. */
  lemma {:induction false} SplitExtendLast(a: string, s: string)
    requires '/' !in s
    ensures var sa := Split(a);
      Split(a + s) == sa[..|sa| - 1] + [sa[|sa| - 1] + s]
    decreases |a|
  {
    if |a| == 0 {
      SplitNoSlash(s);
      assert a + s == s;
    } else {
      assert (a + s)[1..] == a[1..] + s;
      assert (a + s)[0] == a[0];
      SplitExtendLast(a[1..], s);
      var rest := Split(a[1..]);
      var rest' := Split(a[1..] + s);
      assert rest' == rest[..|rest| - 1] + [rest[|rest| - 1] + s];
      if a[0] == '/' {
        SlashHead(a, s, rest, rest');
      } else {
        CharHead(a, s, rest, rest');
      }
    }
  }

  lemma SlashHead(a: string, s: string, rest: seq<string>, rest': seq<string>)
    requires |a| > 0 && a[0] == '/' && |rest| >= 1
    requires Split(a) == [""] + rest && Split(a + s) == [""] + rest'
    requires rest' == rest[..|rest| - 1] + [rest[|rest| - 1] + s]
    ensures var sa := Split(a);
      Split(a + s) == sa[..|sa| - 1] + [sa[|sa| - 1] + s]
  {
    var sa := [""] + rest;
    assert sa[..|sa| - 1] == [""] + rest[..|rest| - 1];
    assert sa[|sa| - 1] == rest[|rest| - 1];
  }

  lemma CharHead(a: string, s: string, rest: seq<string>, rest': seq<string>)
    requires |a| > 0 && a[0] != '/' && |rest| >= 1
    requires rest' == rest[..|rest| - 1] + [rest[|rest| - 1] + s]
    requires Split(a) == [[a[0]] + rest[0]] + rest[1..]
    requires Split(a + s) == [[a[0]] + rest'[0]] + rest'[1..]
    ensures var sa := Split(a);
      Split(a + s) == sa[..|sa| - 1] + [sa[|sa| - 1] + s]
  {
    if |rest| == 1 {
      assert rest' == [rest[0] + s];
      assert [a[0]] + (rest[0] + s) == ([a[0]] + rest[0]) + s;
    } else {
      var sa := [[a[0]] + rest[0]] + rest[1..];
      assert rest'[0] == rest[0];
      assert rest'[1..] == rest[1..|rest| - 1] + [rest[|rest| - 1] + s];
      assert sa[..|sa| - 1] == [[a[0]] + rest[0]] + rest[1..|rest| - 1];
    }
  }

  /** Joining the elements of a split gives back the path. */
  lemma {:induction false} JoinSplit(p: string)
    ensures JoinSlash(Split(p)) == p
    decreases |p|
  {
    if |p| > 0 {
      JoinSplit(p[1..]);
      var rest := Split(p[1..]);
      if p[0] == '/' {
        assert JoinSlash([""] + rest) == "" + "/" + JoinSlash(rest);
        assert p == "/" + p[1..];
      } else if |rest| == 1 {
        assert p == [p[0]] + p[1..];
      } else {
        assert ([""] + rest)[1..] == rest;
        assert JoinSlash(Split(p)) == ([p[0]] + rest[0]) + "/" + JoinSlash(rest[1..]);
        assert JoinSlash(rest) == rest[0] + "/" + JoinSlash(rest[1..]);
        assert p == [p[0]] + p[1..];
      }
    }
  }

  /** Splitting joined slash-free elements gives them back. */
  lemma {:induction false} SplitJoin(elems: seq<string>)
    requires |elems| >= 1
    requires forall i :: 0 <= i < |elems| ==> '/' !in elems[i]
    ensures Split(JoinSlash(elems)) == elems
  {
    SplitNoSlash(elems[0]);
    if |elems| > 1 {
      SplitJoin(elems[1..]);
      SplitAppend(elems[0], JoinSlash(elems[1..]));
    }
  }

  lemma {:induction false} JoinSlashSnoc(s: seq<string>, x: string)
    ensures JoinSlash(s + [x]) == if |s| == 0 then x else JoinSlash(s) + "/" + x
  {
    if |s| > 1 {
      assert (s + [x])[1..] == s[1..] + [x];
      JoinSlashSnoc(s[1..], x);
    } else if |s| == 1 {
      assert (s + [x])[1..] == [x];
    }
  }

  lemma {:induction false} ResolveAppend(stack: seq<string>, a: seq<string>, b: seq<string>, rooted: bool)
    ensures Resolve(stack, a + b, rooted) == Resolve(Resolve(stack, a, rooted), b, rooted)
    decreases |b|
  {
    if |b| == 0 {
      assert a + b == a;
    } else {
      assert (a + b)[..|a + b| - 1] == a + b[..|b| - 1];
      ResolveAppend(stack, a, b[..|b| - 1], rooted);
    }
  }

  /** Processing keeps the stack normal. */
  lemma {:induction false} ResolveNormal(stack: seq<string>, elems: seq<string>, rooted: bool)
    requires Normal(stack, rooted)
    requires forall i :: 0 <= i < |elems| ==> '/' !in elems[i]
    ensures Normal(Resolve(stack, elems, rooted), rooted)
  {
    if |elems| > 0 {
      ResolveNormal(stack, elems[..|elems| - 1], rooted);
      var s := Resolve(stack, elems[..|elems| - 1], rooted);
      var e := elems[|elems| - 1];
      if e == ".." && !(|s| > 0 && s[|s| - 1] != "..") && !rooted {
        assert forall i :: 0 <= i < |s| ==> s[i] == ".." by {
          forall i | 0 <= i < |s| ensures s[i] == ".." {
            if i < |s| - 1 {
              assert s[|s| - 1] == "..";
            }
          }
        }
      }
    }
  }

  /** A normal stack is a fixed point of processing from empty. */
  lemma {:induction false} ResolveNormalFixed(stack: seq<string>, rooted: bool)
    requires Normal(stack, rooted)
    ensures Resolve([], stack, rooted) == stack
  {
    if |stack| > 0 {
      var init := stack[..|stack| - 1];
      assert Normal(init, rooted);
      ResolveNormalFixed(init, rooted);
      assert stack == init + [stack[|stack| - 1]];
      if stack[|stack| - 1] == ".." && |init| > 0 {
        assert init[|init| - 1] == "..";
      }
    }
  }

  /** `path.Clean` never shortens a final element that is a real name: the
      cleaned path still ends with it. */
  lemma {:induction false} CleanKeepsLastName(p: string)
    requires IsName(Split(p)[|Split(p)| - 1])
    ensures EndsWith(Clean(p), Split(p)[|Split(p)| - 1])
  {
    var parts := Split(p);
    var last := parts[|parts| - 1];
    var rooted := p[0] == '/';
    var kept := Resolve([], parts[..|parts| - 1], rooted);
    assert parts[..|parts| - 1] + [last] == parts;
    ResolveAppend([], parts[..|parts| - 1], [last], rooted);
    assert Resolve(kept, [last], rooted) == kept + [last];
    JoinSlashSnoc(kept, last);
  }

  /** Joining kept elements starts with the first one, so it is not empty. */
  lemma JoinSlashStart(stack: seq<string>)
    requires |stack| > 0 && stack[0] != ""
    ensures JoinSlash(stack) != "" && JoinSlash(stack)[0] == stack[0][0]
  {
    if |stack| > 1 {
      assert JoinSlash(stack) == stack[0] + "/" + JoinSlash(stack[1..]);
    }
  }

  /** A rooted path built from normal elements is already clean. */
  lemma CleanRootedFixed(stack: seq<string>)
    requires Normal(stack, true)
    ensures Clean("/" + JoinSlash(stack)) == "/" + JoinSlash(stack)
  {
    var body := JoinSlash(stack);
    var c := "/" + body;
    SplitAppend("", body);
    assert "" + "/" + body == c;
    if |stack| > 0 {
      SplitJoin(stack);
      ResolveNormalFixed(stack, true);
      ResolveAppend([], [""], stack, true);
      assert Resolve([], [""], true) == [];
    } else {
      assert Split(c) == ["", ""];
      assert Resolve([], ["", ""], true) == [];
    }
  }

  /** Three elements joined with slashes. */
  lemma JoinSlashThree(a: string, b: string, c: string)
    ensures JoinSlash([a, b, c]) == a + "/" + b + "/" + c
  {
    assert [a, b, c][1..] == [b, c];
    assert [b, c][1..] == [c];
    assert JoinSlash([b, c]) == b + "/" + c;
    assert JoinSlash([a, b, c]) == a + "/" + (b + "/" + c);
  }

  /** A relative path built from at least one normal element is already
      clean. */
  lemma CleanRelativeFixed(stack: seq<string>)
    requires Normal(stack, false) && |stack| > 0
    ensures Clean(JoinSlash(stack)) == JoinSlash(stack)
  {
    var body := JoinSlash(stack);
    JoinSlashStart(stack);
    SplitJoin(stack);
    ResolveNormalFixed(stack, false);
    assert body[0] != '/';
  }

  /** Cleaning twice is cleaning once. */
  lemma {:induction false} CleanIdempotent(p: string)
    ensures Clean(Clean(p)) == Clean(p)
  {
    if p != "" {
      var rooted := p[0] == '/';
      var stack := Resolve([], Split(p), rooted);
      ResolveNormal([], Split(p), rooted);
      if rooted {
        CleanRootedFixed(stack);
      } else if |stack| == 0 {
        assert Split(".") == ["."] by { SplitNoSlash("."); }
        assert Resolve([], ["."], false) == [];
      } else {
        JoinSlashStart(stack);
        CleanRelativeFixed(stack);
      }
    }
  }

  /** `path.Join` keeps a final element that is a real name: the joined path
      ends with it. */
  lemma {:induction false} JoinKeepsLastName(elems: seq<string>, prefix: string, name: string)
    requires |elems| >= 1 && elems[0] != ""
    requires elems[|elems| - 1] == prefix + name
    requires '/' !in name && |name| > 2
    ensures EndsWith(Join(elems), name)
  {
    var joined := JoinSlash(elems);
    var init := elems[..|elems| - 1];
    assert init + [prefix + name] == elems;
    JoinSlashSnoc(init, prefix + name);
    var head := if |init| == 0 then "" else JoinSlash(init) + "/";
    assert joined == (head + prefix) + name;
    LastPartEndsWith(head + prefix, name);
    CleanKeepsLastName(joined);
  }

  /** The last slash-separated part of a path that ends in slash-free text
      ends in that text. */
  lemma LastPartEndsWith(a: string, name: string)
    requires '/' !in name
    ensures var parts := Split(a + name); EndsWith(parts[|parts| - 1], name)
  {
    SplitExtendLast(a, name);
  }
}
