/** The name sanitisers of the project setup script (scripts/setup-project.js):
    `toSlug` for the package slug and `toScheme` for the URL scheme. Each
    regular-expression replacement is a function over the string. */
module SetupProject {

  predicate IsUpper(c: char) {
    'A' <= c <= 'Z'
  }

  /** `[a-z0-9]`. */
  predicate IsLowerAlnum(c: char) {
    'a' <= c <= 'z' || '0' <= c <= '9'
  }

  /** `\s` in a JavaScript regular expression (and what `trim` removes). */
  predicate IsSpace(c: char) {
    var n := c as int;
    (9 <= n <= 13) || n == 32 || n == 0xA0 || n == 0x1680 || (0x2000 <= n <= 0x200A)
    || n == 0x2028 || n == 0x2029 || n == 0x202F || n == 0x205F || n == 0x3000 || n == 0xFEFF
  }

  /** A character a slug may hold: `[a-z0-9-]`. */
  predicate IsSlugChar(c: char) {
    IsLowerAlnum(c) || c == '-'
  }

  predicate AllLowerAlnum(s: string) {
    forall i | 0 <= i < |s| :: IsLowerAlnum(s[i])
  }

  predicate AllSlugChars(s: string) {
    forall i | 0 <= i < |s| :: IsSlugChar(s[i])
  }

  /** No two dashes in a row. */
  predicate NoDoubleDash(s: string) {
    forall i | 0 <= i < |s| - 1 :: !(s[i] == '-' && s[i + 1] == '-')
  }

  /** `toLowerCase` on ASCII letters; other characters are kept. */
  function Lower(s: string): (r: string)
    ensures |r| == |s|
    ensures forall i | 0 <= i < |s| :: r[i] == if IsUpper(s[i]) then (s[i] as int + 32) as char else s[i]
  {
    if s == [] then []
    else [if IsUpper(s[0]) then (s[0] as int + 32) as char else s[0]] + Lower(s[1..])
  }

  /** `.replace(/[^a-z0-9\s-]/g, '')`. */
  function KeepSlugInput(s: string): (r: string)
    ensures forall i | 0 <= i < |r| :: IsLowerAlnum(r[i]) || IsSpace(r[i]) || r[i] == '-'
  {
    if s == [] then []
    else if IsLowerAlnum(s[0]) || IsSpace(s[0]) || s[0] == '-' then [s[0]] + KeepSlugInput(s[1..])
    else KeepSlugInput(s[1..])
  }

  /** `.replace(/\s+/g, '-')`: every run of white space becomes one dash;
      `inRun` says the previous character was white space. */
  function SpaceRunsToDash(s: string, inRun: bool): (r: string)
    ensures forall i | 0 <= i < |r| :: !IsSpace(r[i])
    ensures forall i | 0 <= i < |r| :: r[i] == '-' || exists j | 0 <= j < |s| :: s[j] == r[i]
  {
    if s == [] then []
    else if IsSpace(s[0]) then
      var rest := SpaceRunsToDash(s[1..], true);
      assert forall i | 0 <= i < |rest| :: rest[i] == '-' || exists j | 0 <= j < |s| :: s[j] == rest[i] by {
        forall i | 0 <= i < |rest| && rest[i] != '-'
          ensures exists j | 0 <= j < |s| :: s[j] == rest[i]
        {
          var k :| 0 <= k < |s[1..]| && s[1..][k] == rest[i];
          assert s[k + 1] == rest[i];
        }
      }
      if inRun then rest else ['-'] + rest
    else
      var rest := SpaceRunsToDash(s[1..], false);
      assert forall i | 0 <= i < |rest| :: rest[i] == '-' || exists j | 0 <= j < |s| :: s[j] == rest[i] by {
        forall i | 0 <= i < |rest| && rest[i] != '-'
          ensures exists j | 0 <= j < |s| :: s[j] == rest[i]
        {
          var k :| 0 <= k < |s[1..]| && s[1..][k] == rest[i];
          assert s[k + 1] == rest[i];
        }
      }
      [s[0]] + rest
  }

  /** `.replace(/-+/g, '-')`: every run of dashes becomes one dash;
      `afterDash` says the previous output character was a dash. */
  function CollapseDashes(s: string, afterDash: bool): (r: string)
    ensures |r| <= |s|
    ensures forall i | 0 <= i < |r| :: exists j | 0 <= j < |s| :: s[j] == r[i]
    ensures NoDoubleDash(r)
    ensures afterDash && r != [] ==> r[0] != '-'
  {
    if s == [] then []
    else if s[0] == '-' then
      var rest := CollapseDashes(s[1..], true);
      assert forall i | 0 <= i < |rest| :: exists j | 0 <= j < |s| :: s[j] == rest[i] by {
        forall i | 0 <= i < |rest|
          ensures exists j | 0 <= j < |s| :: s[j] == rest[i]
        {
          var k :| 0 <= k < |s[1..]| && s[1..][k] == rest[i];
          assert s[k + 1] == rest[i];
        }
      }
      if afterDash then rest else ['-'] + rest
    else
      var rest := CollapseDashes(s[1..], false);
      assert forall i | 0 <= i < |rest| :: exists j | 0 <= j < |s| :: s[j] == rest[i] by {
        forall i | 0 <= i < |rest|
          ensures exists j | 0 <= j < |s| :: s[j] == rest[i]
        {
          var k :| 0 <= k < |s[1..]| && s[1..][k] == rest[i];
          assert s[k + 1] == rest[i];
        }
      }
      [s[0]] + rest
  }

  /** Leading white space removed. */
  function TrimStart(s: string): (r: string)
    ensures |r| <= |s|
  {
    if s != [] && IsSpace(s[0]) then TrimStart(s[1..]) else s
  }

  /** Trailing white space removed. */
  function TrimEnd(s: string): (r: string)
    ensures |r| <= |s|
  {
    if s != [] && IsSpace(s[|s| - 1]) then TrimEnd(s[..|s| - 1]) else s
  }

  /** `.trim()`. */
  function Trim(s: string): string {
    TrimEnd(TrimStart(s))
  }

  /** `toSlug`: only `[a-z0-9-]`, never two dashes in a row. */
  function ToSlug(name: string): (r: string)
    ensures AllSlugChars(r) && NoDoubleDash(r)
  {
    var pre := CollapseDashes(SpaceRunsToDash(KeepSlugInput(Lower(name)), false), false);
    SlugBeforeTrim(name);
    Trim(pre)
  }

  /** `.replace(/[^a-z0-9]/g, '')`. */
  function KeepLowerAlnum(s: string): (r: string)
    ensures AllLowerAlnum(r)
    ensures |r| <= |s|
  {
    if s == [] then []
    else if IsLowerAlnum(s[0]) then [s[0]] + KeepLowerAlnum(s[1..])
    else KeepLowerAlnum(s[1..])
  }

  /** `toScheme`: only `[a-z0-9]`, and never longer than the name. */
  function ToScheme(name: string): (r: string)
    ensures AllLowerAlnum(r) && |r| <= |name|
  {
    KeepLowerAlnum(Lower(name))
  }

  /** A string free of white space is its own trim. */
  lemma TrimWithoutSpaces(s: string)
    requires forall i | 0 <= i < |s| :: !IsSpace(s[i])
    ensures Trim(s) == s
  {
  }

  /** The slug before the final trim holds only slug characters and no double
      dash, so the trim changes nothing. */
  lemma SlugBeforeTrim(name: string)
    ensures var pre := CollapseDashes(SpaceRunsToDash(KeepSlugInput(Lower(name)), false), false);
      && AllSlugChars(pre) && NoDoubleDash(pre) && Trim(pre) == pre
  {
    var kept := KeepSlugInput(Lower(name));
    var dashed := SpaceRunsToDash(kept, false);
    var pre := CollapseDashes(dashed, false);
    assert AllSlugChars(dashed) by {
      forall i | 0 <= i < |dashed|
        ensures IsSlugChar(dashed[i])
      {
        if dashed[i] != '-' {
          var j :| 0 <= j < |kept| && kept[j] == dashed[i];
        }
      }
    }
    assert AllSlugChars(pre) by {
      forall i | 0 <= i < |pre|
        ensures IsSlugChar(pre[i])
      {
        var j :| 0 <= j < |dashed| && dashed[j] == pre[i];
      }
    }
    TrimWithoutSpaces(pre);
  }

  // Identities on strings that already have the output's shape.

  lemma {:induction false} LowerOfLowerAlnum(s: string)
    requires AllSlugChars(s)
    ensures Lower(s) == s
  {
    if s != [] {
      LowerOfLowerAlnum(s[1..]);
    }
  }

  lemma {:induction false} KeepOfSlugChars(s: string)
    requires AllSlugChars(s)
    ensures KeepSlugInput(s) == s && KeepLowerAlnum(s) == RemoveDashes(s)
  {
    if s != [] {
      KeepOfSlugChars(s[1..]);
    }
  }

  lemma {:induction false} RunsOfNoSpaces(s: string, inRun: bool)
    requires AllSlugChars(s)
    ensures SpaceRunsToDash(s, inRun) == s
  {
    if s != [] {
      RunsOfNoSpaces(s[1..], false);
    }
  }

  lemma {:induction false} CollapseOfSingleDashes(s: string, afterDash: bool)
    requires NoDoubleDash(s)
    requires afterDash && s != [] ==> s[0] != '-'
    ensures CollapseDashes(s, afterDash) == s
  {
    if s != [] {
      CollapseOfSingleDashes(s[1..], s[0] == '-');
    }
  }

  /** Dashes removed. */
  function RemoveDashes(s: string): (r: string) {
    if s == [] then [] else if s[0] == '-' then RemoveDashes(s[1..]) else [s[0]] + RemoveDashes(s[1..])
  }

  /** Both sanitisers are idempotent. */
  lemma Idempotent(name: string)
    ensures ToSlug(ToSlug(name)) == ToSlug(name)
    ensures ToScheme(ToScheme(name)) == ToScheme(name)
  {
    var t := ToSlug(name);
    SlugBeforeTrim(name);
    LowerOfLowerAlnum(t);
    KeepOfSlugChars(t);
    RunsOfNoSpaces(t, false);
    CollapseOfSingleDashes(t, false);
    TrimWithoutSpaces(t);
    var u := ToScheme(name);
    LowerOfLowerAlnum(u);
    KeepOfSlugChars(u);
    NoDashesRemoved(u);
  }

  lemma {:induction false} NoDashesRemoved(s: string)
    requires AllLowerAlnum(s)
    ensures RemoveDashes(s) == s
  {
    if s != [] {
      NoDashesRemoved(s[1..]);
    }
  }

  /** A name of lower-case letters and digits passes through both unchanged. */
  lemma LowerAlnumUnchanged(name: string)
    requires AllLowerAlnum(name)
    ensures ToSlug(name) == name && ToScheme(name) == name
  {
    LowerOfLowerAlnum(name);
    KeepOfSlugChars(name);
    NoDashesRemoved(name);
    RunsOfNoSpaces(name, false);
    CollapseOfSingleDashes(name, false);
    TrimWithoutSpaces(name);
  }

  // Each slug step keeps the letters and digits, in order.

  lemma {:induction false} KeepSlugInputAlnum(s: string)
    ensures KeepLowerAlnum(KeepSlugInput(s)) == KeepLowerAlnum(s)
  {
    if s != [] {
      KeepSlugInputAlnum(s[1..]);
      if IsSpace(s[0]) {
        assert !IsLowerAlnum(s[0]);
      }
    }
  }

  lemma {:induction false} SpaceRunsAlnum(s: string, inRun: bool)
    ensures KeepLowerAlnum(SpaceRunsToDash(s, inRun)) == KeepLowerAlnum(s)
  {
    if s != [] {
      SpaceRunsAlnum(s[1..], IsSpace(s[0]));
      if IsSpace(s[0]) {
        assert !IsLowerAlnum(s[0]);
      }
    }
  }

  lemma {:induction false} CollapseAlnum(s: string, afterDash: bool)
    ensures KeepLowerAlnum(CollapseDashes(s, afterDash)) == KeepLowerAlnum(s)
  {
    if s != [] {
      CollapseAlnum(s[1..], s[0] == '-');
    }
  }

  /** Deleting the dashes of the slug gives the scheme. */
  lemma SlugWithoutDashesIsScheme(name: string)
    ensures RemoveDashes(ToSlug(name)) == ToScheme(name)
  {
    var lowered := Lower(name);
    var kept := KeepSlugInput(lowered);
    var dashed := SpaceRunsToDash(kept, false);
    SlugBeforeTrim(name);
    KeepOfSlugChars(ToSlug(name));
    CollapseAlnum(dashed, false);
    SpaceRunsAlnum(kept, false);
    KeepSlugInputAlnum(lowered);
  }
}
