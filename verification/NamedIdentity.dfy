/** Which session a command line names, read off its arguments. */
module NamedIdentity {
  import opened Outcomes
  import opened MatchBasis

  const ID_FLAGS := {"--session-id", "--resume"}

  /** The argument is one of the two flags, alone or followed by an equals sign. */
  predicate HasIdFlag(arg: string) {
    exists flag :: flag in ID_FLAGS && (arg == flag || flag + "=" <= arg)
  }

  /** The value glued to a flag, up to a second equals sign. */
  predicate GluedId(arg: string, flag: string, id: string) {
    '=' !in id && (arg == flag + "=" + id || flag + "=" + id + "=" <= arg)
  }

  /** Argument i is the first with a flag, and the nonempty id is glued to it or is the next argument. */
  predicate NamesAt(args: seq<string>, i: nat, id: string)
    requires i < |args|
  {
    && (forall j :: 0 <= j < i ==> !HasIdFlag(args[j]))
    && id != ""
    && ((args[i] in ID_FLAGS && i + 1 < |args| && args[i + 1] == id)
        || exists flag :: flag in ID_FLAGS && GluedId(args[i], flag, id))
  }

  ghost predicate Names(args: seq<string>, id: string) {
    exists i :: 0 <= i < |args| && NamesAt(args, i, id)
  }

  lemma FlagsAre(arg: string)
    ensures IsIdFlag(arg) <==> HasIdFlag(arg)
  {
    assert "--session-id" in ID_FLAGS && "--resume" in ID_FLAGS;
    assert "--session-id" + "=" == "--session-id=" && "--resume" + "=" == "--resume=";
  }

  lemma {:induction false} UpToEqualsIs(s: string)
    ensures var r := UpToEquals(s);
            && '=' !in r && r <= s && (|r| < |s| ==> s[|r|] == '=')
  {
    if |s| > 0 && s[0] != '=' {
      UpToEqualsIs(s[1..]);
      assert s == [s[0]] + s[1..];
    }
  }

  /** The prefix without an equals sign that ends at one, or at the end, is unique. */
  lemma UpToEqualsUnique(s: string, r: string)
    requires '=' !in r && r <= s && (|r| < |s| ==> s[|r|] == '=')
    ensures UpToEquals(s) == r
  {
    UpToEqualsIs(s);
    var u := UpToEquals(s);
    assert forall k :: 0 <= k < |u| ==> s[k] == u[k] != '=';
    assert forall k :: 0 <= k < |r| ==> s[k] == r[k] != '=';
  }

  lemma FlagsHoldNoEquals(flag: string)
    requires flag in ID_FLAGS
    ensures '=' !in flag
  {
  }

  lemma UpToEqualsIff(s: string, id: string)
    ensures UpToEquals(s) == id <==> '=' !in id && (s == id || id + "=" <= s)
  {
    UpToEqualsIs(s);
    if UpToEquals(s) == id && |id| < |s| { assert s == id + "=" + s[|id| + 1..]; }
    if '=' !in id && id + "=" <= s {
      assert s[..|id| + 1] == id + "=";
      assert s[..|id|] == id && s[|id|] == '=';
      UpToEqualsUnique(s, id);
    }
    if '=' !in id && s == id { UpToEqualsUnique(s, id); }
  }

  lemma GluedRest(flag: string, rest: string, id: string)
    ensures GluedId(flag + "=" + rest, flag, id) <==> '=' !in id && (rest == id || id + "=" <= rest)
  {
    var head := flag + "=";
    assert head + id + "=" == head + (id + "=");
    SamePrefix(head, rest, id + "=");
    assert head + rest == head + id <==> rest == id by {
      assert (head + rest)[|head|..] == rest && (head + id)[|head|..] == id;
    }
  }

  lemma SamePrefix(head: string, a: string, b: string)
    ensures head + b <= head + a <==> b <= a
  {
    if head + b <= head + a {
      assert (head + a)[..|head + b|] == head + b;
      assert a[..|b|] == (head + a)[|head|..|head| + |b|] == (head + b)[|head|..] == b;
    }
    if b <= a { assert head + a == head + b + a[|b|..]; }
  }

  /** The second part of a flag argument is what is glued to it. */
  lemma GluedIs(arg: string, flag: string, id: string)
    requires flag in ID_FLAGS && flag + "=" <= arg
    ensures SecondPart(arg) == Some(id) <==> GluedId(arg, flag, id)
    ensures SecondPart(arg).Some?
  {
    hide UpToEquals, GluedId;
    FlagsHoldNoEquals(flag);
    assert arg[..|flag|] == (flag + "=")[..|flag|] == flag && arg[|flag|] == (flag + "=")[|flag|];
    UpToEqualsUnique(arg, flag);
    var rest := arg[|flag| + 1..];
    assert arg == flag + "=" + rest;
    UpToEqualsIff(rest, id);
    GluedRest(flag, rest, id);
  }

  lemma AloneIs(arg: string)
    requires arg in ID_FLAGS
    ensures SecondPart(arg) == None
  {
    FlagsHoldNoEquals(arg);
    UpToEqualsUnique(arg, arg);
  }

  /** An argument starts with at most one flag. */
  lemma OneFlag(arg: string, flag: string, other: string, id: string)
    requires flag in ID_FLAGS && other in ID_FLAGS && (arg == flag || flag + "=" <= arg) && GluedId(arg, other, id)
    ensures flag == other && flag + "=" <= arg
  {
    assert other + "=" <= arg;
    assert arg[2] == other[2] && (arg[2] == flag[2]);
  }

  lemma GluedIsNotAlone(arg: string, flag: string)
    requires flag in ID_FLAGS && flag + "=" <= arg
    ensures arg !in ID_FLAGS
  {
    assert arg[|flag|] == (flag + "=")[|flag|] == '=';
    forall f | f in ID_FLAGS ensures '=' !in f { FlagsHoldNoEquals(f); }
  }

  lemma NamingHasFlag(args: seq<string>, i: nat, id: string)
    requires i < |args| && NamesAt(args, i, id)
    ensures HasIdFlag(args[i])
  {
    if args[i] !in ID_FLAGS {
      var flag :| flag in ID_FLAGS && GluedId(args[i], flag, id);
      assert flag + "=" <= args[i];
    }
  }

  /** `--session-id` and `--resume`, alone or glued: a command line names exactly the ids read off it here. */
  lemma {:induction false} NamedIff(p: Process, id: string)
    ensures NamedId(p) == Some(id) <==> Names(p.args, id)
    decreases |p.args|
  {
    var args := p.args;
    if |args| > 0 {
      FlagsAre(args[0]);
      var rest := p.(args := args[1..]);
      if !HasIdFlag(args[0]) {
        NamedIff(rest, id);
        NamesLater(args, id);
      } else {
        NamesFirst(args, id);
        var flag :| flag in ID_FLAGS && (args[0] == flag || flag + "=" <= args[0]);
        if args[0] == flag {
          AloneIs(args[0]);
          forall other | other in ID_FLAGS && GluedId(args[0], other, id) ensures false { OneFlag(args[0], flag, other, id); }
        } else {
          GluedIs(args[0], flag, id);
          forall other | other in ID_FLAGS && GluedId(args[0], other, id) ensures other == flag { OneFlag(args[0], flag, other, id); }
          GluedIsNotAlone(args[0], flag);
        }
      }
    }
  }

  lemma NamesFirst(args: seq<string>, id: string)
    requires |args| > 0 && HasIdFlag(args[0])
    ensures Names(args, id) <==> NamesAt(args, 0, id)
  {
    if Names(args, id) {
      var i :| 0 <= i < |args| && NamesAt(args, i, id);
      assert i == 0;
    }
  }

  lemma NamesLater(args: seq<string>, id: string)
    requires |args| > 0 && !HasIdFlag(args[0])
    ensures Names(args, id) <==> Names(args[1..], id)
  {
    hide HasIdFlag, GluedId;
    if Names(args, id) {
      var i :| 0 <= i < |args| && NamesAt(args, i, id);
      NamingHasFlag(args, i, id);
      assert forall j :: 0 <= j < i - 1 ==> args[1..][j] == args[j + 1];
      assert NamesAt(args[1..], i - 1, id);
    }
    if Names(args[1..], id) {
      var i :| 0 <= i < |args[1..]| && NamesAt(args[1..], i, id);
      assert forall j :: 0 < j < i + 1 ==> args[j] == args[1..][j - 1];
      assert NamesAt(args, i + 1, id);
    }
  }

  /** The process is kept out of heuristic matching exactly when it names an id that does not start with a dash. */
  lemma ReservedIff(p: Process)
    ensures IsReserved(p) <==> exists id :: Names(p.args, id) && id[0] != '-'
  {
    if NamedId(p).Some? {
      var id := NamedId(p).value;
      NamedIff(p, id);
      NamedIsNonempty(p.args, id);
      assert id[..1] == "-" <==> id[0] == '-';
    }
    forall id | Names(p.args, id) ensures NamedId(p) == Some(id) && id != "" {
      NamedIff(p, id);
      NamedIsNonempty(p.args, id);
    }
  }

  lemma NamedIsNonempty(args: seq<string>, id: string)
    requires Names(args, id)
    ensures id != ""
  {
  }

  /** The process a desktop session runs in: bound by identity, whatever else competes. */
  lemma DesktopSession(p: Process, id: string)
    requires p.args == ["--session-id", id] && id != "" && id[0] != '-'
    ensures NamedId(p) == Some(id) && IsReserved(p)
  {
    hide NamedId, IsReserved;
    assert NamesAt(p.args, 0, id);
    NamedIff(p, id);
    ReservedIff(p);
  }

  /** The forms in which a command line can name an id, after arguments without a flag. */
  lemma FlagForms(p: Process, pre: seq<string>, flag: string, id: string, post: seq<string>)
    requires flag in ID_FLAGS && id != "" && forall a :: a in pre ==> !HasIdFlag(a)
    requires p.args == pre + [flag, id] + post || (p.args == pre + [flag + "=" + id] + post && '=' !in id)
    ensures NamedId(p) == Some(id)
  {
    hide NamedId, HasIdFlag;
    assert NamesAt(p.args, |pre|, id);
    NamedIff(p, id);
  }

  lemma NoFlagNamesNothing(p: Process)
    requires forall a :: a in p.args ==> !HasIdFlag(a)
    ensures NamedId(p) == None && !IsReserved(p)
  {
    hide HasIdFlag;
    if NamedId(p).Some? {
      var id := NamedId(p).value;
      NamedIff(p, id);
      var i :| 0 <= i < |p.args| && NamesAt(p.args, i, id);
      NamingHasFlag(p.args, i, id);
    }
  }
}
