/** The browser's own checks on a form's controls, made before it lets a
    `submit` event reach the page (constraint validation in the HTML Living
    Standard). A form without `novalidate` whose controls fail one of these
    checks is not submitted at all. Only the checks the admin forms trigger
    are here: `required` on a text control, `type="email"`, and the step of
    a `type="number"` control. */
module ConstraintValidation {

  /** `required` on a text control: the value may not be empty. */
  predicate Filled(value: string) {
    value != ""
  }

  /** An ASCII letter or digit. */
  predicate IsLetDig(c: char) {
    'a' <= c <= 'z' || 'A' <= c <= 'Z' || '0' <= c <= '9'
  }

  /** `atext` of section 3.2.3 of RFC 5322: letters, digits and these symbols. */
  predicate IsAtext(c: char) {
    IsLetDig(c) || c in "!#$%&'*+-/=?^_`{|}~"
  }

  /** One domain label: 1 to 63 letters, digits and hyphens, beginning and
      ending with a letter or digit. */
  predicate IsLabel(s: string) {
    1 <= |s| <= 63 && IsLetDig(s[0]) && IsLetDig(s[|s| - 1]) &&
    forall i :: 0 <= i < |s| ==> IsLetDig(s[i]) || s[i] == '-'
  }

  /** The index of the first `c` in `s`, or `|s|` when there is none. */
  function FirstIndex(s: string, c: char): (k: nat)
    ensures k <= |s|
    ensures forall i :: 0 <= i < k ==> s[i] != c
    ensures k < |s| ==> s[k] == c
  {
    if s == [] then 0
    else if s[0] == c then 0
    else 1 + FirstIndex(s[1..], c)
  }

  /** `FirstIndex` is pinned down by its contract. */
  lemma FirstIndexIs(s: string, c: char, k: nat)
    requires k <= |s| && (k < |s| ==> s[k] == c)
    requires forall i :: 0 <= i < k ==> s[i] != c
    ensures FirstIndex(s, c) == k
  {
  }

  /** One or more labels separated by single dots. */
  predicate IsDomain(s: string)
    decreases |s|
  {
    var k := FirstIndex(s, '.');
    if k == |s| then IsLabel(s)
    else IsLabel(s[..k]) && IsDomain(s[k + 1..])
  }

  /** A "valid e-mail address": one or more `atext` characters or dots, an
      `@`, then a domain. No `@` can occur before the one that separates the
      two parts, so that one is the first. */
  predicate ValidEmail(s: string) {
    var k := FirstIndex(s, '@');
    1 <= k < |s| &&
    (forall i :: 0 <= i < k ==> IsAtext(s[i]) || s[i] == '.') &&
    IsDomain(s[k + 1..])
  }

  /** `type="email"` without `multiple`: a value that is not empty must be a
      valid e-mail address (an empty one is left to `required`). */
  predicate EmailMatches(value: string) {
    value == "" || ValidEmail(value)
  }

  /** `type="number"` with no `step`, `min` or `value` attribute: the step is
      1 counted from 0, so the value must be a whole number. */
  predicate StepMatches(x: real) {
    x.Floor as real == x
  }

  /** A domain holds only letters, digits, hyphens and dots, and begins and
      ends with a letter or digit. */
  lemma {:induction false} DomainShape(s: string)
    requires IsDomain(s)
    ensures |s| >= 1 && IsLetDig(s[0]) && IsLetDig(s[|s| - 1])
    ensures forall i :: 0 <= i < |s| ==> IsLetDig(s[i]) || s[i] == '-' || s[i] == '.'
    decreases |s|
  {
    var k := FirstIndex(s, '.');
    if k < |s| {
      var head, tail := s[..k], s[k + 1..];
      DomainShape(tail);
      assert s == head + ['.'] + tail;
      forall i | 0 <= i < |s|
        ensures IsLetDig(s[i]) || s[i] == '-' || s[i] == '.'
      {
        if i < k {
          assert s[i] == head[i];
        } else if i > k {
          assert s[i] == tail[i - k - 1];
        }
      }
      assert s[|s| - 1] == tail[|tail| - 1];
    }
  }

  /** Each dot of a domain has a letter or digit on both sides, so no label
      begins or ends with a hyphen and no two dots are adjacent. */
  lemma {:induction false} DotsBetweenLetDigs(s: string)
    requires IsDomain(s)
    ensures forall i :: 0 <= i < |s| && s[i] == '.' ==> 0 < i < |s| - 1 && IsLetDig(s[i - 1]) && IsLetDig(s[i + 1])
    decreases |s|
  {
    var k := FirstIndex(s, '.');
    if k < |s| {
      var head, tail := s[..k], s[k + 1..];
      DotsBetweenLetDigs(tail);
      DomainShape(tail);
      forall i | 0 <= i < |s| && s[i] == '.'
        ensures 0 < i < |s| - 1 && IsLetDig(s[i - 1]) && IsLetDig(s[i + 1])
      {
        if i == k {
          assert s[i - 1] == head[k - 1];
          assert s[i + 1] == tail[0];
        } else {
          assert i > k;
          assert tail[i - k - 1] == '.';
          assert s[i - 1] == tail[i - k - 2];
          assert s[i + 1] == tail[i - k];
        }
      }
    }
  }

  /** A valid address holds exactly one `@`, is at least three characters
      long and ends with a letter or digit. */
  lemma ValidEmailShape(s: string)
    requires ValidEmail(s)
    ensures |s| >= 3 && IsLetDig(s[|s| - 1])
    ensures '@' in s
    ensures forall i, j :: 0 <= i < j < |s| && s[i] == '@' ==> s[j] != '@'
  {
    var k := FirstIndex(s, '@');
    assert s[k] == '@';
    var domain := s[k + 1..];
    DomainShape(domain);
    forall i, j | 0 <= i < j < |s| && s[i] == '@'
      ensures s[j] != '@'
    {
      assert i == k;
      assert s[j] == domain[j - k - 1];
    }
    assert s[|s| - 1] == domain[|domain| - 1];
  }

  /** An address the browser accepts. */
  lemma AcceptedEmail()
    ensures ValidEmail("a@acme.io")
  {
    var s := "a@acme.io";
    assert FirstIndex(s, '@') == 1;
    var d := s[2..];
    assert d == "acme.io";
    FirstIndexIs(d, '.', 4);
    assert d[..4] == "acme" && IsLabel("acme");
    var t := d[5..];
    assert t == "io";
    FirstIndexIs(t, '.', 2);
    assert IsLabel(t);
  }

  /** An address without `@` is refused. */
  lemma NoAtRefused(s: string)
    requires '@' !in s
    ensures !ValidEmail(s)
  {
    FirstIndexIs(s, '@', |s|);
  }

  /** An address with nothing before its `@` is refused. */
  lemma EmptyLocalPartRefused(s: string)
    requires |s| > 0 && s[0] == '@'
    ensures !ValidEmail(s)
  {
  }

  /** An address ending in a dot is refused. */
  lemma TrailingDotRefused(s: string)
    requires |s| > 0 && s[|s| - 1] == '.'
    ensures !ValidEmail(s)
  {
    if ValidEmail(s) {
      ValidEmailShape(s);
    }
  }

  /** In a valid address, the character after the `@` and after each dot
      past it, which begins a domain label, is a letter or digit. */
  lemma LabelStartsWithLetDig(s: string, at: nat, j: nat)
    requires ValidEmail(s)
    requires at <= j < |s| - 1 && s[at] == '@'
    requires j == at || s[j] == '.'
    ensures IsLetDig(s[j + 1])
  {
    ValidEmailShape(s);
    assert FirstIndex(s, '@') == at;
    var domain := s[at + 1..];
    DomainShape(domain);
    DotsBetweenLetDigs(domain);
    if j == at {
      assert s[j + 1] == domain[0];
    } else {
      assert domain[j - at - 1] == '.';
      assert s[j + 1] == domain[j - at];
    }
  }

  /** An address is refused when a domain label begins with a hyphen: the
      character after the `@` at `at`, or after a dot `j` past it, is `-`. */
  lemma LeadingHyphenRefused(s: string, at: nat, j: nat)
    requires at <= j < |s| - 1 && s[at] == '@'
    requires j == at || s[j] == '.'
    requires s[j + 1] == '-'
    ensures !ValidEmail(s)
  {
    if ValidEmail(s) {
      LabelStartsWithLetDig(s, at, j);
    }
  }
}
