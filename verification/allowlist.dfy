/**
 * The cron-name allowlist, read once at start-up from a comma-separated
 * setting: each piece is stripped of surrounding whitespace and empty pieces
 * are dropped. An empty allowlist places no restriction on names.
 */
module Allowlist {
  import opened Text

  /**
   * The allowlist a setting denotes. Every member is non-empty, has no
   * whitespace at either end and contains no comma; an empty setting gives
   * the empty allowlist.
   */
  function Parse(setting: string): (names: set<string>)
    ensures forall n :: n in names ==> n != [] && Trimmed(n) && ',' !in n
    ensures setting == [] ==> names == {}
  {
    var pieces := Split(setting, ',');
    StrippedNamesCommaFree(pieces);
    assert setting == [] ==> StrippedNames(pieces) == {} by {
      if setting == [] {
        StrippedNamesCons([], []);
        assert pieces == [[]] + [];
      }
    }
    StrippedNames(pieces)
  }

  /** The set of non-empty stripped pieces. */
  function StrippedNames(pieces: seq<string>): (names: set<string>)
    ensures forall n :: n in names ==> n != [] && Trimmed(n)
  {
    if pieces == [] then {}
    else (if Strip(pieces[0]) != [] then {Strip(pieces[0])} else {}) + StrippedNames(pieces[1..])
  }

  /** Stripping comma-free pieces yields comma-free names. */
  lemma StrippedNamesCommaFree(pieces: seq<string>)
    requires forall p :: p in pieces ==> ',' !in p
    ensures forall n :: n in StrippedNames(pieces) ==> ',' !in n
  {
    forall n | n in StrippedNames(pieces)
      ensures ',' !in n
    {
      StrippedNamesMembers(pieces, n);
      var p :| p in pieces && Strip(p) == n;
      StripKeepsOut(p, ',');
    }
  }

  /** Unfolding StrippedNames at one leading piece. */
  lemma StrippedNamesCons(p: string, rest: seq<string>)
    ensures StrippedNames([p] + rest) == (if Strip(p) != [] then {Strip(p)} else {}) + StrippedNames(rest)
  {
    assert ([p] + rest)[1..] == rest;
  }

  /** Whether the gate lets `name` through: an empty allowlist admits every name. */
  predicate Permits(allowlist: set<string>, name: string)
    ensures allowlist == {} ==> Permits(allowlist, name)
    ensures allowlist != {} ==> (Permits(allowlist, name) <==> name in allowlist)
  {
    allowlist == {} || name in allowlist
  }

  /**
   * A name is in the parsed allowlist exactly when it is non-empty and some
   * comma-separated piece of the setting strips to it.
   */
  lemma ParseMembers(setting: string, name: string)
    ensures name in Parse(setting) <==>
      name != [] && exists p :: p in Split(setting, ',') && Strip(p) == name
  {
    StrippedNamesMembers(Split(setting, ','), name);
  }

  lemma {:induction false} StrippedNamesMembers(pieces: seq<string>, name: string)
    ensures name in StrippedNames(pieces) <==>
      name != [] && exists p :: p in pieces && Strip(p) == name
  {
    if pieces != [] {
      StrippedNamesMembers(pieces[1..], name);
      if name != [] && Strip(pieces[0]) != name {
        if exists p :: p in pieces && Strip(p) == name {
          var p :| p in pieces && Strip(p) == name;
          assert p in pieces[1..];
        }
      }
    }
  }

  /** A setting made only of commas and whitespace leaves the gateway unrestricted. */
  lemma BlankSettingUnrestricted(setting: string)
    requires forall i :: 0 <= i < |setting| ==> setting[i] == ',' || IsSpace(setting[i])
    ensures Parse(setting) == {}
    ensures forall name :: Permits(Parse(setting), name)
  {
    BlankPieces(setting);
    forall n | true
      ensures n !in Parse(setting)
    {
      StrippedNamesMembers(Split(setting, ','), n);
    }
  }

  /** Splitting text made of commas and whitespace on commas leaves only whitespace pieces. */
  lemma {:induction false} BlankPieces(s: string)
    requires forall i :: 0 <= i < |s| ==> s[i] == ',' || IsSpace(s[i])
    ensures forall p :: p in Split(s, ',') ==> AllSpace(p)
  {
    if s != [] {
      var rest := Split(s[1..], ',');
      BlankPieces(s[1..]);
      if s[0] != ',' {
        var first := [s[0]] + rest[0];
        assert AllSpace(first) by {
          assert AllSpace(rest[0]);
          forall i | 0 <= i < |first|
            ensures IsSpace(first[i])
          {
            if i > 0 { assert first[i] == rest[0][i - 1]; }
          }
        }
        assert Split(s, ',') == [first] + rest[1..];
      }
    }
  }

  /**
   * Writing clean names (non-empty, no outer whitespace, no comma) separated
   * by commas gives a setting whose allowlist is exactly those names.
   */
  lemma ParseJoin(names: seq<string>)
    requires |names| >= 1
    requires forall n :: n in names ==> n != [] && Trimmed(n) && ',' !in n
    ensures Parse(Join(names, ',')) == set n | n in names
  {
    SplitJoin(names, ',');
    StrippedNamesClean(names);
  }

  /** Pieces that are already clean names are their own stripped names. */
  lemma {:induction false} StrippedNamesClean(pieces: seq<string>)
    requires forall n :: n in pieces ==> n != [] && Trimmed(n)
    ensures StrippedNames(pieces) == set n | n in pieces
  {
    if pieces != [] {
      var n, rest := pieces[0], pieces[1..];
      assert pieces == [n] + rest;
      StripExact([], n, []);
      assert [] + n + [] == n;
      assert forall m :: m in rest ==> m in pieces;
      StrippedNamesClean(rest);
      StrippedNamesCons(n, rest);
      ElementsCons(n, rest);
    }
  }

  /** The elements of a sequence with one more piece in front. */
  lemma ElementsCons(n: string, rest: seq<string>)
    ensures (set m | m in [n] + rest) == {n} + set m | m in rest
  {
  }

  /** The allowlist `backup, digest` written with stray spaces and an empty piece. */
  lemma ParseExample(setting: string)
    requires setting == " backup , ,digest"
    ensures Parse(setting) == {"backup", "digest"}
  {
    ExampleSplit(setting);
    ExampleStrips();
    StrippedNamesOfThree(" backup ", " ", "digest");
  }

  lemma ExampleSplit(setting: string)
    requires setting == " backup , ,digest"
    ensures Split(setting, ',') == [" backup ", " ", "digest"]
  {
    var pieces := [" backup ", " ", "digest"];
    assert Join(pieces, ',') == setting;
    SplitJoin(pieces, ',');
  }

  lemma ExampleStrips()
    ensures Strip(" backup ") == "backup" && Strip(" ") == [] && Strip("digest") == "digest"
  {
    StripExact(" ", "backup", " ");
    assert " " + "backup" + " " == " backup ";
    assert AllSpace(" ");
    StripExact("", "digest", "");
    assert "" + "digest" + "" == "digest";
  }

  /** StrippedNames of three pieces, the middle one blank. */
  lemma StrippedNamesOfThree(a: string, b: string, c: string)
    requires Strip(a) != [] && Strip(b) == [] && Strip(c) != []
    ensures StrippedNames([a, b, c]) == {Strip(a), Strip(c)}
  {
    StrippedNamesCons(c, []);
    assert [c] + [] == [c];
    StrippedNamesCons(b, [c]);
    assert [b] + [c] == [b, c];
    StrippedNamesCons(a, [b, c]);
    assert [a] + [b, c] == [a, b, c];
  }
}
