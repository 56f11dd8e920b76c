/** The regular expressions the pages use to validate e-mail addresses and phone numbers.
    Each pattern is modelled twice: as a scan of the string (what a matcher does: find the
    `@`, then look for a `.` after it) and as a description of the strings the pattern
    matches (where the `@` and the `.` may sit); a lemma proves the two agree. */
module Patterns {
  import opened Text

  // ---------------------------------------------------------------------------
  // Chat widget: /^[^\s@]+@[^\s@]+\.[^\s@]+$/

  /** Scan: the first `@` has something before it, no other `@` follows it, and a `.`
      sits strictly inside what follows the `@` (at least one character on each side). */
  predicate ChatEmail(s: string) {
    var i := |Before(s, '@')|;
    && NoSpace(s) && 1 <= i < |s| && '@' !in s[i + 1..]
    && i + 2 <= |s| - 2 && '.' in s[i + 2..|s| - 1]
  }

  /** `s` splits as (local) `@` (domain) `.` (tld), every part non-empty, no white space
      anywhere and no `@` other than the separator. */
  predicate ChatEmailAt(s: string, i: int, j: int) {
    && NoSpace(s) && 1 <= i && i + 2 <= j && j + 2 <= |s|
    && s[i] == '@' && s[j] == '.'
    && forall k :: 0 <= k < |s| && k != i ==> s[k] != '@'
  }

  lemma ChatEmailIff(s: string)
    ensures ChatEmail(s) <==> exists i, j :: ChatEmailAt(s, i, j)
  {
    var b := Before(s, '@');
    var i := |b|;
    if ChatEmail(s) {
      var t := s[i + 2..|s| - 1];
      var d :| 0 <= d < |t| && t[d] == '.';
      var j := i + 2 + d;
      assert s[j] == '.';
      forall k | 0 <= k < |s| && k != i ensures s[k] != '@' {
        if k < i {
          assert s[k] == b[k];
        } else {
          assert s[k] == s[i + 1..][k - i - 1];
        }
      }
      assert ChatEmailAt(s, i, j);
    }
    if exists i', j :: ChatEmailAt(s, i', j) {
      var i', j :| ChatEmailAt(s, i', j);
      assert i < |s| ==> s[i] == '@';
      assert i == i';
      assert s[i + 2..|s| - 1][j - i - 2] == '.';
    }
  }

  // ---------------------------------------------------------------------------
  // BookAppointment: /^\S+@\S+\.\S+$/i

  /** Scan: take the first `@` after the first character; a `.` must sit strictly inside
      what follows it. */
  predicate AppointmentEmail(s: string) {
    && NoSpace(s) && |s| >= 1
    && var i := 1 + |Before(s[1..], '@')|;
       i + 2 <= |s| - 2 && '.' in s[i + 2..|s| - 1]
  }

  /** `s` has no white space and splits as x `@` y `.` z with x, y, z non-empty
      (x, y and z may themselves hold `@` and `.`). */
  predicate AppointmentEmailAt(s: string, i: int, j: int) {
    && NoSpace(s) && 1 <= i && i + 2 <= j && j + 2 <= |s|
    && s[i] == '@' && s[j] == '.'
  }

  lemma AppointmentEmailIff(s: string)
    ensures AppointmentEmail(s) <==> exists i, j :: AppointmentEmailAt(s, i, j)
  {
    if |s| >= 1 {
      var b := Before(s[1..], '@');
      var i := 1 + |b|;
      if AppointmentEmail(s) {
        var t := s[i + 2..|s| - 1];
        var d :| 0 <= d < |t| && t[d] == '.';
        assert s[i] == s[1..][|b|] == '@';
        assert s[i + 2 + d] == '.';
        assert AppointmentEmailAt(s, i, i + 2 + d);
      }
      if exists i', j :: AppointmentEmailAt(s, i', j) {
        var i', j :| AppointmentEmailAt(s, i', j);
        assert s[i + 2..|s| - 1][j - i - 2] == '.';
      }
    }
  }

  // ---------------------------------------------------------------------------
  // Signup: /^\S+@\S+$/i

  /** Scan: the first `@` after the first character must leave a character after it. */
  predicate SignupEmail(s: string) {
    NoSpace(s) && |s| >= 1 && 1 + |Before(s[1..], '@')| <= |s| - 2
  }

  /** `s` has no white space and splits as x `@` y with x and y non-empty. */
  predicate SignupEmailAt(s: string, i: int) {
    NoSpace(s) && 1 <= i <= |s| - 2 && s[i] == '@'
  }

  lemma SignupEmailIff(s: string)
    ensures SignupEmail(s) <==> exists i :: SignupEmailAt(s, i)
  {
    if |s| >= 1 {
      var b := Before(s[1..], '@');
      var i := 1 + |b|;
      if SignupEmail(s) {
        assert s[i] == s[1..][|b|];
        assert SignupEmailAt(s, i);
      }
      if exists i' :: SignupEmailAt(s, i') {
        var i' :| SignupEmailAt(s, i');
      }
    }
  }

  // ---------------------------------------------------------------------------
  // Login: /\S+@\S+\.\S+/ (not anchored: a match anywhere in the string will do)

  /** Scan for the `.`: from position `j` on, extend a run of non-white-space characters
      (the one before `j` included) until a `.` followed by a non-white-space character. */
  predicate DotScan(s: string, j: nat)
    decreases |s| - j
  {
    && 1 <= j && j + 2 <= |s| && !IsSpace(s[j - 1])
    && ((s[j] == '.' && !IsSpace(s[j + 1])) || DotScan(s, j + 1))
  }

  /** Scan for the `@`: try every position from `i` on as the `@`. */
  predicate AtScan(s: string, i: nat)
    decreases |s| - i
  {
    && 1 <= i < |s|
    && ((s[i] == '@' && !IsSpace(s[i - 1]) && DotScan(s, i + 2)) || AtScan(s, i + 1))
  }

  predicate LoginEmail(s: string) {
    AtScan(s, 1)
  }

  /** The `.` at `k` closes a run of non-white-space characters that starts at `j - 1`,
      and is followed by a non-white-space character. */
  predicate DotAt(s: string, j: int, k: int) {
    1 <= j <= k && k + 2 <= |s| && NoSpace(s[j - 1..k]) && s[k] == '.' && !IsSpace(s[k + 1])
  }

  /** Some substring of `s` is x `@` y `.` z with x, y, z non-empty and free of white space:
      the `@` at `i`, the `.` at `j`. One character of x and of z is all it takes. */
  predicate LoginEmailAt(s: string, i: int, j: int) {
    && 1 <= i && i + 2 <= j && j + 2 <= |s|
    && !IsSpace(s[i - 1]) && s[i] == '@' && NoSpace(s[i + 1..j])
    && s[j] == '.' && !IsSpace(s[j + 1])
  }

  lemma {:induction false} DotScanIff(s: string, j: nat)
    requires 1 <= j
    ensures DotScan(s, j) <==> exists k :: DotAt(s, j, k)
    decreases |s| - j
  {
    forall k | DotAt(s, j, k) ensures j + 2 <= |s| && !IsSpace(s[j - 1]) {
      assert s[j - 1..k][0] == s[j - 1];
    }
    if j + 2 <= |s| && !IsSpace(s[j - 1]) {
      DotScanIff(s, j + 1);
      if s[j] == '.' && !IsSpace(s[j + 1]) {
        assert DotAt(s, j, j);
      } else if DotScan(s, j + 1) {
        var k :| DotAt(s, j + 1, k);
        assert s[j - 1..k] == [s[j - 1]] + s[j..k];
        assert DotAt(s, j, k);
      } else if exists k :: DotAt(s, j, k) {
        var k :| DotAt(s, j, k);
        assert k != j;
        assert s[j..k] == s[j - 1..k][1..];
        assert DotAt(s, j + 1, k);
      }
    }
  }

  lemma {:induction false} AtScanIff(s: string, i: nat)
    requires 1 <= i
    ensures AtScan(s, i) <==> exists i', j :: i <= i' && LoginEmailAt(s, i', j)
    decreases |s| - i
  {
    if i < |s| {
      AtScanIff(s, i + 1);
      DotScanIff(s, i + 2);
      if s[i] == '@' && !IsSpace(s[i - 1]) && DotScan(s, i + 2) {
        var k :| DotAt(s, i + 2, k);
        assert LoginEmailAt(s, i, k);
      }
      if exists i', j :: i <= i' && LoginEmailAt(s, i', j) {
        var i', j :| i <= i' && LoginEmailAt(s, i', j);
        if i' == i {
          assert DotAt(s, i + 2, j);
        }
      }
    }
  }

  lemma LoginEmailIff(s: string)
    ensures LoginEmail(s) <==> exists i, j :: LoginEmailAt(s, i, j)
  {
    AtScanIff(s, 1);
  }

  // ---------------------------------------------------------------------------
  // Phone numbers

  /** /^\d{10}$/: exactly ten ASCII digits and nothing else. */
  predicate TenDigits(s: string) {
    |s| == 10 && AllDigits(s)
  }

  /** /^\d{7,}$/: seven or more ASCII digits and nothing else. */
  predicate SevenOrMoreDigits(s: string) {
    |s| >= 7 && AllDigits(s)
  }

  /** The chat widget's phone test, /^\d{7,}$/ applied to `s.replace(/\D/g, '')`, holds
      exactly when at least seven positions of `s` hold a digit, whatever else it holds. */
  lemma ChatPhoneIff(s: string)
    ensures SevenOrMoreDigits(Digits(s)) <==> DigitCount(s) >= 7
  {
    DigitsLength(s);
  }

  // ---------------------------------------------------------------------------
  // How the four e-mail rules differ

  /** Every address the chat widget accepts is accepted by the appointment form. */
  lemma ChatEmailImpliesAppointmentEmail(s: string)
    requires ChatEmail(s)
    ensures AppointmentEmail(s)
  {
    ChatEmailIff(s);
    var i, j :| ChatEmailAt(s, i, j);
    assert AppointmentEmailAt(s, i, j);
    AppointmentEmailIff(s);
  }

  /** Every address the appointment form accepts is accepted by the sign-up form. */
  lemma AppointmentEmailImpliesSignupEmail(s: string)
    requires AppointmentEmail(s)
    ensures SignupEmail(s)
  {
    AppointmentEmailIff(s);
    var i, j :| AppointmentEmailAt(s, i, j);
    assert SignupEmailAt(s, i);
    SignupEmailIff(s);
  }

  /** Every address the appointment form accepts is accepted by the login form, and so is
      the same address with white space around it, which the appointment form refuses. */
  lemma AppointmentEmailImpliesLoginEmail(s: string, pre: string, post: string)
    requires AppointmentEmail(s)
    ensures LoginEmail(pre + s + post)
  {
    AppointmentEmailIff(s);
    var i, j :| AppointmentEmailAt(s, i, j);
    var t := pre + s + post;
    assert t[|pre| + i + 1..|pre| + j] == s[i + 1..j];
    assert LoginEmailAt(t, |pre| + i, |pre| + j);
    LoginEmailIff(t);
  }

  /** "a@b" passes the sign-up rule but not the appointment rule (no dot). */
  lemma NoDotSeparatesSignupFromAppointment()
    ensures SignupEmail("a@b") && !AppointmentEmail("a@b")
  {
    assert SignupEmailAt("a@b", 1);
    SignupEmailIff("a@b");
  }

  /** "a@b@c.d" passes the appointment rule but not the chat widget's (two `@`). */
  lemma SecondAtSeparatesAppointmentFromChat()
    ensures AppointmentEmail("a@b@c.d") && !ChatEmail("a@b@c.d")
  {
    var s := "a@b@c.d";
    assert AppointmentEmailAt(s, 1, 5);
    AppointmentEmailIff(s);
    assert s[1] == '@' && s[3] == '@';
    ChatEmailIff(s);
  }

  /** " a@b.c" passes the login rule but not the appointment rule (leading space). */
  lemma SpaceSeparatesLoginFromAppointment()
    ensures LoginEmail(" a@b.c") && !AppointmentEmail(" a@b.c")
  {
    var s := " a@b.c";
    assert s[3..4] == "b";
    assert LoginEmailAt(s, 2, 4);
    LoginEmailIff(s);
    assert !NoSpace(s) by {
      assert IsSpace(s[0]);
    }
  }
}
