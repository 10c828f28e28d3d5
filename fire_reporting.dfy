/**
 * The fire-report form: six pieces of state moved by input handlers, the
 * position callback and two timers, the rule that enables its submit
 * button, and the report ID shown once a report is accepted.
 */
module FireReporting {
  import opened Wrappers

  /** A chosen photo; only its name is visible to the form. */
  datatype File = File(name: string)

  const DefaultSeverity: string := "moderate"

  class FireReportForm {
    var selectedImage: Option<File>
    var description: string
    var severity: string
    var loading: bool
    var submitted: bool
    var location: Option<(real, real)>

    /** A fresh form: nothing chosen, nothing typed, default severity, no position yet. */
    constructor ()
      ensures selectedImage == None && description == "" && severity == DefaultSeverity
      ensures !loading && !submitted && location == None
    {
      selectedImage, description, severity := None, "", DefaultSeverity;
      loading, submitted, location := false, false, None;
    }

    /** The submit button is enabled when nothing is in flight and both a photo and a position are known. */
    function SubmitEnabled(): (enabled: bool)
      reads this
      ensures enabled ==> selectedImage.Some? && location.Some?
      ensures loading ==> !enabled
      ensures !enabled ==> loading || selectedImage == None || location == None
    {
      !loading && selectedImage.Some? && location.Some?
    }

    /** The position callback of the mount effect. */
    method PositionReceived(latitude: real, longitude: real)
      modifies this`location
      ensures location == Some((latitude, longitude))
    {
      location := Some((latitude, longitude));
    }

    /** `handleImageUpload`: the first chosen file replaces the selection; an empty choice keeps it. */
    method ImageChosen(files: seq<File>)
      modifies this`selectedImage
      ensures |files| > 0 ==> selectedImage == Some(files[0])
      ensures |files| == 0 ==> selectedImage == old(selectedImage)
    {
      if |files| > 0 {
        selectedImage := Some(files[0]);
      }
    }

    /** The "Remove image" button. */
    method RemoveImage()
      modifies this`selectedImage
      ensures selectedImage == None
    {
      selectedImage := None;
    }

    method SeverityChosen(value: string)
      modifies this`severity
      ensures severity == value
    {
      severity := value;
    }

    method DescriptionTyped(value: string)
      modifies this`description
      ensures description == value
    {
      description := value;
    }

    /** `handleSubmit`: marks the report as in flight and starts the first timer. */
    method Submit()
      modifies this`loading
      ensures loading
    {
      loading := true;
    }

    /** The first timer: the report is accepted. */
    method SubmitTimerFires()
      modifies this`loading, this`submitted
      ensures !loading && submitted
    {
      loading := false;
      submitted := true;
    }

    /** The second timer: the form is cleared, but the position is kept. */
    method ResetTimerFires()
      modifies this`submitted, this`selectedImage, this`description, this`severity
      ensures !submitted && selectedImage == None && description == "" && severity == DefaultSeverity
    {
      submitted := false;
      selectedImage := None;
      description := "";
      severity := DefaultSeverity;
    }
  }

  /**
   * A whole report, from an empty form through both timers: the button is
   * enabled only once photo and position are both known, disabled while the
   * report is in flight, and after the reset the form is empty again except
   * for the position, so another photo alone re-enables it.
   */
  method ReportCycle(latitude: real, longitude: real, photo: File) returns (form: FireReportForm)
    ensures fresh(form)
    ensures !form.loading && !form.submitted && form.selectedImage == None
    ensures form.description == "" && form.severity == DefaultSeverity
    ensures form.location == Some((latitude, longitude))
  {
    form := new FireReportForm();
    assert !form.SubmitEnabled();
    form.ImageChosen([photo]);
    assert !form.SubmitEnabled();
    form.PositionReceived(latitude, longitude);
    assert form.SubmitEnabled();
    form.Submit();
    assert !form.SubmitEnabled();
    form.SubmitTimerFires();
    form.ResetTimerFires();
    assert !form.SubmitEnabled();
    form.ImageChosen([]);
    assert !form.SubmitEnabled();
  }

  // ---- the report ID ----

  predicate IsDigit(c: char) {
    '0' <= c <= '9'
  }

  function DigitChar(d: nat): (c: char)
    requires d < 10
    ensures IsDigit(c)
  {
    ('0' as int + d) as char
  }

  function DigitValue(c: char): (d: nat)
    requires IsDigit(c)
    ensures d < 10
  {
    c as int - '0' as int
  }

  lemma DigitRoundTrip(d: nat)
    requires d < 10
    ensures DigitValue(DigitChar(d)) == d
  {
  }

  function Pow10(k: nat): (p: nat)
    ensures p >= 1
  {
    if k == 0 then 1 else 10 * Pow10(k - 1)
  }

  /** `Number.prototype.toString()` of a non-negative integer: decimal, no leading zeros. */
  function Decimal(n: nat): (s: string)
    ensures |s| >= 1
    ensures forall i :: 0 <= i < |s| ==> IsDigit(s[i])
    ensures s[0] == '0' ==> n == 0
  {
    if n < 10 then [DigitChar(n)] else Decimal(n / 10) + [DigitChar(n % 10)]
  }

  /** The number a string of digits denotes (leading zeros allowed). */
  function DecimalValue(s: string): nat
    requires forall i :: 0 <= i < |s| ==> IsDigit(s[i])
  {
    if |s| == 0 then 0 else DecimalValue(s[..|s| - 1]) * 10 + DigitValue(s[|s| - 1])
  }

  /**
   * `s.slice(-k)` for a positive `k`: the last `k` characters, or the whole
   * string when it is shorter. (For `k = 0` JavaScript's `slice(-0)` is the
   * whole string, not the empty one; the report ID only uses `k = 6`.)
   */
  function Last(s: string, k: nat): (r: string)
    ensures |r| == if |s| <= k then |s| else k
    ensures r == s[|s| - |r|..]
  {
    if |s| <= k then s else s[|s| - k..]
  }

  /** `"FR-" + Date.now().toString().slice(-6)`. */
  function ReportId(now: nat): (id: string)
    ensures 4 <= |id| <= 9 && id[..3] == "FR-"
    ensures forall i :: 3 <= i < |id| ==> IsDigit(id[i])
  {
    "FR-" + Last(Decimal(now), 6)
  }

  lemma {:induction false} DecimalRoundTrip(n: nat)
    ensures DecimalValue(Decimal(n)) == n
    decreases n
  {
    if n >= 10 {
      var s := Decimal(n);
      assert s[..|s| - 1] == Decimal(n / 10);
      DecimalRoundTrip(n / 10);
    }
  }

  lemma {:induction false} DecimalLength(n: nat, k: nat)
    requires n >= Pow10(k)
    ensures |Decimal(n)| > k
  {
    if k > 0 {
      assert n / 10 >= Pow10(k - 1);
      DecimalLength(n / 10, k - 1);
    }
  }

  lemma MultipleOutsideUnit(m: int, x: int)
    requires m > 0
    ensures x >= 1 ==> m * x >= m
    ensures x <= -1 ==> m * x <= -m
  {
    if x >= 1 {
      assert m * x == m + m * (x - 1);
    } else if x <= -1 {
      assert m * x == -m + m * (x + 1);
    }
  }

  /** A remainder is the only value in [0, m) that differs from `n` by a multiple of `m`. */
  lemma ModUnique(n: int, m: int, a: int, r: int)
    requires m > 0 && 0 <= r < m && n == m * a + r
    ensures n % m == r
  {
    var q := n / m;
    assert m * (a - q) == n % m - r;
    MultipleOutsideUnit(m, a - q);
  }

  /** Splitting off the last decimal digit commutes with taking a remainder by a power of ten. */
  lemma LastDigitMod(n: nat, p: nat)
    requires p >= 1
    ensures (n / 10 % p) * 10 + n % 10 == n % (10 * p)
  {
    var q, r := n / 10, n % 10;
    var a, b := q / p, q % p;
    assert n == 10 * q + r;
    assert q == p * a + b;
    assert n == (10 * p) * a + (10 * b + r);
    ModUnique(n, 10 * p, a, 10 * b + r);
  }

  lemma LastOfAppend(t: string, c: char, k: nat)
    requires k > 0
    ensures Last(t + [c], k) == Last(t, k - 1) + [c]
  {
  }

  lemma ValueOfAppend(u: string, c: char)
    requires forall i :: 0 <= i < |u| ==> IsDigit(u[i])
    requires IsDigit(c)
    ensures DecimalValue(u + [c]) == DecimalValue(u) * 10 + DigitValue(c)
  {
    assert (u + [c])[..|u|] == u;
  }

  lemma NoDigitsLast(n: nat)
    ensures DecimalValue(Last(Decimal(n), 0)) == n % Pow10(0)
  {
    assert Last(Decimal(n), 0) == [];
  }

  lemma SingleDigitLast(n: nat, k: nat)
    requires n < 10 && k > 0
    ensures DecimalValue(Last(Decimal(n), k)) == n % Pow10(k)
  {
    DecimalRoundTrip(n);
    assert Last(Decimal(n), k) == Decimal(n);
    ModUnique(n, Pow10(k), 0, n);
  }

  /** The last `k` digits of `n` denote `n` modulo 10^k. */
  ghost predicate LastDigitsDenoteRemainder(n: nat, k: nat) {
    DecimalValue(Last(Decimal(n), k)) == n % Pow10(k)
  }

  /** Appending one digit extends the value of the last `k - 1` digits to that of the last `k`. */
  lemma LastDigitsStep(n: nat, k: nat)
    requires n >= 10 && k > 0
    requires LastDigitsDenoteRemainder(n / 10, k - 1)
    ensures LastDigitsDenoteRemainder(n, k)
  {
    var p := Pow10(k - 1);
    var t, c := Decimal(n / 10), DigitChar(n % 10);
    var u := Last(t, k - 1);
    assert Decimal(n) == t + [c];
    LastOfAppend(t, c, k);
    ValueOfAppend(u, c);
    DigitRoundTrip(n % 10);
    var v := DecimalValue(u);
    assert DecimalValue(Last(Decimal(n), k)) == v * 10 + n % 10;
    LastDigitMod(n, p);
  }

  /** The last `k` digits of a number denote its remainder by 10^k. */
  lemma {:induction false} LastDigitsValue(n: nat, k: nat)
    ensures LastDigitsDenoteRemainder(n, k)
    decreases k, 1
  {
    if k == 0 {
      NoDigitsLast(n);
    } else if n < 10 {
      SingleDigitLast(n, k);
    } else {
      LastDigitsOfLongNumber(n, k);
    }
  }

  /** The inductive case: a number of two or more digits, by its leading digits `n / 10`. */
  lemma {:induction false} LastDigitsOfLongNumber(n: nat, k: nat)
    requires n >= 10 && k > 0
    ensures LastDigitsDenoteRemainder(n, k)
    decreases k, 0
  {
    LastDigitsValue(n / 10, k - 1);
    LastDigitsStep(n, k);
  }

  /** Once the clock has six digits the ID has nine characters, and its digits are the clock modulo 10^6. */
  lemma ReportIdShape(now: nat)
    ensures DecimalValue(ReportId(now)[3..]) == now % 1000000
    ensures now >= 100000 ==> |ReportId(now)| == 9
  {
    var id := ReportId(now);
    assert id[3..] == Last(Decimal(now), 6);
    LastDigitsValue(now, 6);
    assert Pow10(6) == 1000000;
    if now >= 100000 {
      assert Pow10(5) == 100000;
      DecimalLength(now, 5);
    }
  }
}
