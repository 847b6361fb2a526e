/** The site footer's newsletter form: an email address is checked
    against `/^[^\s@]+@[^\s@]+\.[^\s@]+$/` and, when it passes, stored in
    the `signup` collection. */
module Footer {
  import opened Js
  import opened Strings
  import opened Store

  /** A character the class `[^\s@]` matches. */
  predicate Plain(c: char) {
    !IsSpace(c) && c != '@'
  }

  predicate AllPlain(s: string) {
    forall k :: 0 <= k < |s| ==> Plain(s[k])
  }

  /** The regular expression matches `s` with its '@' at `i` and its
      '.' at `j`: each of the three runs `[^\s@]+` is non-empty, and the
      anchors make them cover the whole string. */
  predicate MatchAt(s: string, i: int, j: int) {
    && 0 < i && i + 1 < j && j + 1 < |s|
    && s[i] == '@' && s[j] == '.'
    && AllPlain(s[..i]) && AllPlain(s[i + 1..j]) && AllPlain(s[j + 1..])
  }

  /** The regular expression matches `s` for some choice of the two
      split points. */
  ghost predicate MatchesPattern(s: string) {
    exists i, j :: MatchAt(s, i, j)
  }

  /** The position of the first '@', or `|s|` when there is none. */
  function FirstAt(s: string): (i: nat)
    ensures i <= |s|
    ensures forall k :: 0 <= k < i ==> s[k] != '@'
    ensures i < |s| ==> s[i] == '@'
  {
    if s == [] || s[0] == '@' then 0 else 1 + FirstAt(s[1..])
  }

  /** `r` has a '.' with at least one character on each side. */
  predicate InnerDot(r: string) {
    exists d :: 0 < d < |r| - 1 && r[d] == '.'
  }

  /** `validateEmail`: a non-empty local part free of white space and
      '@', then '@', then a domain free of white space and '@' with a '.'
      that is neither its first nor its last character. Such an address
      has exactly one '@' and no white space. */
  function ValidateEmail(email: string): (ok: bool)
    ensures ok ==> Occurrences(email, '@') == 1
    ensures ok ==> forall k :: 0 <= k < |email| ==> !IsSpace(email[k])
  {
    var at := FirstAt(email);
    var ok := 0 < at < |email| && AllPlain(email[..at]) && AllPlain(email[at + 1..]) && InnerDot(email[at + 1..]);
    if ok then
      OneAt(email[..at], email[at + 1..]);
      assert email == email[..at] + ['@'] + email[at + 1..];
      assert forall k :: 0 <= k < |email| ==> !IsSpace(email[k]) by {
        forall k | 0 <= k < |email| ensures !IsSpace(email[k]) {
          if k < at {
            assert email[k] == email[..at][k];
          } else if k > at {
            assert email[k] == email[at + 1..][k - at - 1];
          }
        }
      }
      ok
    else
      ok
  }

  lemma OneAt(local: string, domain: string)
    requires AllPlain(local) && AllPlain(domain)
    ensures Occurrences(local + ['@'] + domain, '@') == 1
  {
    assert '@' !in local by {
      forall k | 0 <= k < |local| ensures local[k] != '@' {
        assert Plain(local[k]);
      }
    }
    assert '@' !in domain by {
      forall k | 0 <= k < |domain| ensures domain[k] != '@' {
        assert Plain(domain[k]);
      }
    }
    OccurrencesConcat(local, ['@'], '@');
    OccurrencesConcat(local + ['@'], domain, '@');
  }

  /** The validator accepts exactly the strings the regular expression
      matches. */
  lemma ValidateEmailMatchesPattern(email: string)
    ensures ValidateEmail(email) <==> MatchesPattern(email)
  {
    var at := FirstAt(email);
    if ValidateEmail(email) {
      var r := email[at + 1..];
      var d :| 0 < d < |r| - 1 && r[d] == '.';
      var j := at + 1 + d;
      assert email[at + 1..j] == r[..d];
      assert email[j + 1..] == r[d + 1..];
      assert email[j] == r[d];
      assert MatchAt(email, at, j);
    }
    if MatchesPattern(email) {
      var i, j :| MatchAt(email, i, j);
      assert at == i;
      var r := email[at + 1..];
      assert email[at + 1..j] == r[..j - at - 1];
      assert email[j + 1..] == r[j - at..];
      assert AllPlain(r) by {
        forall k | 0 <= k < |r| ensures Plain(r[k]) {
          if k < j - at - 1 {
            assert r[k] == email[at + 1..j][k];
          } else if k > j - at - 1 {
            assert r[k] == email[j + 1..][k - (j - at)];
          } else {
            assert r[k] == '.';
          }
        }
      }
      assert r[j - at - 1] == '.';
      assert InnerDot(r);
    }
  }

  datatype StatusKind = NoStatus | Success | Error

  /** The message under the form. */
  datatype Status = Status(kind: StatusKind, message: string)

  const InvalidEmail := "Please enter a valid email address"
  const Subscribed := "Thank you for subscribing!"
  const SubscribeFailed := "Failed to subscribe. Please try again."

  class Form {
    var email: string
    var status: Status
    var isSubmitting: bool

    constructor ()
      ensures email == "" && status == Status(NoStatus, "") && !isSubmitting
    {
      email, status, isSubmitting := "", Status(NoStatus, ""), false;
    }

    method SetEmail(value: string)
      modifies this`email
      ensures email == value
    {
      email := value;
    }

    /** `handleSubmit`. `newId` is the id the store assigns and `fault`
        whether the write fails. */
    method HandleSubmit(db: Firestore, newId: string, fault: bool)
      modifies this`email, this`status, this`isSubmitting, db`signup
      ensures !ValidateEmail(old(email)) ==>
                && status == Status(Error, InvalidEmail) && email == old(email)
                && isSubmitting == old(isSubmitting) && db.signup == old(db.signup)
      ensures ValidateEmail(old(email)) ==> !isSubmitting
      ensures ValidateEmail(old(email)) && !fault ==>
                && db.signup == old(db.signup)[newId := Signup(old(email), ServerTime)]
                && email == "" && status == Status(Success, Subscribed)
      ensures ValidateEmail(old(email)) && fault ==>
                && db.signup == old(db.signup) && email == old(email)
                && status == Status(Error, SubscribeFailed)
    {
      if !ValidateEmail(email) {
        status := Status(Error, InvalidEmail);
        return;
      }
      isSubmitting := true;
      if !fault {
        db.signup := db.signup[newId := Signup(email, ServerTime)];
        email := "";
        status := Status(Success, Subscribed);
      } else {
        status := Status(Error, SubscribeFailed);
      }
      isSubmitting := false;
    }
  }
}
