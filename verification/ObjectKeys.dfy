/** The layout of object keys, and why no two objects share one. */
module ObjectKeys {
  import opened Text

  datatype Key =
    | BaseKey(run: string, idx: nat)
    | SubmissionKey(run: string, idx: nat, task: string)
    | MomentumKey(run: string)

  /** Round numbers are padded to five digits and grow past them when they must. */
  function Padded(idx: nat): (r: string)
    ensures AllDigits(r)
  {
    if idx < 100000 then Fixed(idx, 5) else Decimal(idx)
  }

  /** What follows "runs/<run>/" in a key. */
  function AfterRun(k: Key): string {
    match k
    case BaseKey(_, idx) => "rounds/" + (Padded(idx) + "/" + "base.safetensors")
    case SubmissionKey(_, idx, task) => "rounds/" + (Padded(idx) + "/" + ("submissions/" + (task + ".safetensors")))
    case MomentumKey(_) => "momentum.safetensors"
  }

  function KeyText(k: Key): string {
    "runs/" + (k.run + "/" + AfterRun(k))
  }

  /** The prefix under which garbage collection lists a round's submissions. */
  function SubmissionsPrefix(run: string, idx: nat): string {
    "runs/" + (run + "/" + ("rounds/" + (Padded(idx) + "/" + "submissions/")))
  }

  predicate SlashFree(s: string) {
    forall i | 0 <= i < |s| :: s[i] != '/'
  }

  lemma {:induction false} SplitAtSlash(a: string, x: string, b: string, y: string)
    requires SlashFree(a) && SlashFree(b) && a + "/" + x == b + "/" + y
    ensures a == b && x == y
  {
    var s, t := a + "/" + x, b + "/" + y;
    if a == "" || b == "" {
      assert s[0] == t[0];
      assert a == b == "";
      assert s[1..] == x && t[1..] == y;
    } else {
      assert s[0] == a[0] && t[0] == b[0];
      assert s[1..] == a[1..] + "/" + x;
      assert t[1..] == b[1..] + "/" + y;
      SplitAtSlash(a[1..], x, b[1..], y);
    }
  }

  lemma CancelPrefix(p: string, a: string, b: string)
    requires p + a == p + b
    ensures a == b
  {
    assert (p + a)[|p|..] == a && (p + b)[|p|..] == b;
  }

  lemma CancelSuffix(a: string, b: string, s: string)
    requires a + s == b + s
    ensures a == b
  {
    assert |a| == |b|;
    assert (a + s)[..|a|] == a && (b + s)[..|b|] == b;
  }

  lemma DigitsSlashFree(s: string)
    requires AllDigits(s)
    ensures SlashFree(s)
  {
  }

  lemma PaddedIsInjective(i: nat, j: nat)
    requires Padded(i) == Padded(j)
    ensures i == j
  {
    assert Pow10(1) == 10 && Pow10(2) == 100 && Pow10(3) == 1000 && Pow10(4) == 10000 && Pow10(5) == 100000;
    PaddedValue(i);
    PaddedValue(j);
  }

  lemma PaddedValue(i: nat)
    requires Pow10(5) == 100000
    ensures Value(Padded(i)) == i
  {
    if i < 100000 {
      ValueOfFixed(i, 5);
    } else {
      ValueOfDecimal(i);
    }
  }

  lemma RunsSplit(k: Key, l: Key)
    requires SlashFree(k.run) && SlashFree(l.run) && KeyText(k) == KeyText(l)
    ensures k.run == l.run && AfterRun(k) == AfterRun(l)
  {
    hide AfterRun;
    CancelPrefix("runs/", k.run + "/" + AfterRun(k), l.run + "/" + AfterRun(l));
    SplitAtSlash(k.run, AfterRun(k), l.run, AfterRun(l));
  }

  lemma RoundsSplit(i: nat, x: string, j: nat, y: string)
    requires "rounds/" + (Padded(i) + "/" + x) == "rounds/" + (Padded(j) + "/" + y)
    ensures i == j && x == y
  {
    hide Padded;
    CancelPrefix("rounds/", Padded(i) + "/" + x, Padded(j) + "/" + y);
    DigitsSlashFree(Padded(i));
    DigitsSlashFree(Padded(j));
    SplitAtSlash(Padded(i), x, Padded(j), y);
    PaddedIsInjective(i, j);
  }

  /** With run ids that hold no slash, different objects have different keys. */
  lemma KeyTextIsInjective(k: Key, l: Key)
    requires SlashFree(k.run) && SlashFree(l.run) && KeyText(k) == KeyText(l)
    ensures k == l
  {
    hide KeyText, Padded;
    RunsSplit(k, l);
    if k.MomentumKey? || l.MomentumKey? {
      assert AfterRun(k)[0] == AfterRun(l)[0];
    } else {
      var x, y := AfterRound(k), AfterRound(l);
      RoundsSplit(k.idx, x, l.idx, y);
      assert x[0] == y[0];
      if k.SubmissionKey? {
        CancelPrefix("submissions/", k.task + ".safetensors", l.task + ".safetensors");
        CancelSuffix(k.task, l.task, ".safetensors");
      }
    }
  }

  function AfterRound(k: Key): string
    requires !k.MomentumKey?
    ensures AfterRun(k) == "rounds/" + (Padded(k.idx) + "/" + AfterRound(k))
  {
    if k.BaseKey? then "base.safetensors" else "submissions/" + (k.task + ".safetensors")
  }

  /** The reason run ids must hold no slash: the listing of a round's submissions finds every
      object of a run whose id continues that prefix. */
  lemma SlashesLeakIntoListing(run: string, idx: nat, name: string, k: Key)
    requires k.run == run + "/" + ("rounds/" + (Padded(idx) + "/" + ("submissions/" + name)))
    ensures SubmissionsPrefix(run, idx) <= KeyText(k)
  {
    hide Padded, AfterRun;
    var p := run + "/" + ("rounds/" + (Padded(idx) + "/" + "submissions/"));
    Regroup(run, "/", "rounds/", Padded(idx), "/", "submissions/", name);
    assert k.run == p + name;
    assert KeyText(k) == SubmissionsPrefix(run, idx) + (name + "/" + AfterRun(k));
  }

  lemma Regroup(a: string, b: string, c: string, d: string, e: string, f: string, g: string)
    ensures a + b + (c + (d + e + (f + g))) == a + b + (c + (d + e + f)) + g
  {
  }

  lemma SplitPrefix(a: string, x: string, b: string, y: string, rest: string)
    requires SlashFree(a) && SlashFree(b) && b + "/" + y == a + "/" + x + rest
    ensures a == b && y == x + rest
  {
    assert a + "/" + x + rest == a + "/" + (x + rest);
    SplitAtSlash(a, x + rest, b, y);
  }

  /** A prefix listing of one round's submissions finds that round's submissions and nothing
      else: no base, no momentum, no other round, no other run. */
  lemma ListingIsExact(run: string, idx: nat, k: Key)
    requires SlashFree(run) && SlashFree(k.run)
    ensures SubmissionsPrefix(run, idx) <= KeyText(k) <==> k.SubmissionKey? && k.run == run && k.idx == idx
  {
    hide Padded;
    var p, t := SubmissionsPrefix(run, idx), KeyText(k);
    if p <= t {
      var rest := t[|p|..];
      assert t == p + rest;
      ListedKey(run, idx, k, rest);
    } else if k.SubmissionKey? && k.run == run && k.idx == idx {
      FoundByPrefix(run, idx, k.task);
    }
  }

  lemma FoundByPrefix(run: string, idx: nat, task: string)
    ensures SubmissionsPrefix(run, idx) <= KeyText(SubmissionKey(run, idx, task))
  {
    hide Padded;
    Regroup(run, "/", "rounds/", Padded(idx), "/", "submissions/", task + ".safetensors");
    assert KeyText(SubmissionKey(run, idx, task)) == SubmissionsPrefix(run, idx) + (task + ".safetensors");
  }

  lemma ListedKey(run: string, idx: nat, k: Key, rest: string)
    requires SlashFree(run) && SlashFree(k.run)
    requires "runs/" + (k.run + "/" + AfterRun(k)) == "runs/" + (run + "/" + ("rounds/" + (Padded(idx) + "/" + "submissions/"))) + rest
    ensures k.SubmissionKey? && k.run == run && k.idx == idx
  {
    hide Padded, AfterRun;
    var tail := "rounds/" + (Padded(idx) + "/" + "submissions/");
    assert "runs/" + (run + "/" + tail) + rest == "runs/" + (run + "/" + tail + rest);
    CancelPrefix("runs/", k.run + "/" + AfterRun(k), run + "/" + tail + rest);
    SplitPrefix(run, tail, k.run, AfterRun(k), rest);
    assert tail + rest == "rounds/" + (Padded(idx) + "/" + ("submissions/" + rest));
    ListedInRound(idx, k, rest);
  }

  lemma ListedInRound(idx: nat, k: Key, rest: string)
    requires AfterRun(k) == "rounds/" + (Padded(idx) + "/" + ("submissions/" + rest))
    ensures k.SubmissionKey? && k.idx == idx
  {
    hide Padded;
    assert AfterRun(k)[0] == 'r';
    if !k.MomentumKey? {
      RoundsSplit(k.idx, AfterRound(k), idx, "submissions/" + rest);
      assert AfterRound(k)[0] == 's';
    }
  }

  lemma OrderInside(a: string, b: string, c: string, x: string, y: string, tail: string)
    requires |x| == |y| && Less(x, y)
    ensures Less(a + (b + (c + (x + tail))), a + (b + (c + (y + tail))))
  {
    hide Less;
    LessBefore(x, y, tail, tail);
    LessAfterPrefix(c, x + tail, y + tail);
    LessAfterPrefix(b, c + (x + tail), c + (y + tail));
    LessAfterPrefix(a, b + (c + (x + tail)), b + (c + (y + tail)));
  }

  lemma PaddedOrder(i: nat, j: nat)
    requires i < j < 100000
    ensures |Padded(i)| == |Padded(j)| && Less(Padded(i), Padded(j))
  {
    assert Pow10(1) == 10 && Pow10(2) == 100 && Pow10(3) == 1000 && Pow10(4) == 10000 && Pow10(5) == 100000;
    hide Less;
    FixedOrder(i, j, 5);
  }

  lemma BaseKeyText(run: string, idx: nat)
    ensures KeyText(BaseKey(run, idx)) == "runs/" + (run + "/" + ("rounds/" + (Padded(idx) + ("/" + "base.safetensors"))))
  {
    hide Padded;
    assert Padded(idx) + "/" + "base.safetensors" == Padded(idx) + ("/" + "base.safetensors");
  }

  /** Keys of one run's rounds sort in round order while every round number has five digits. */
  lemma ListingOrder(run: string, i: nat, j: nat)
    requires i < j < 100000
    ensures Less(KeyText(BaseKey(run, i)), KeyText(BaseKey(run, j)))
  {
    hide Less, Padded, KeyText;
    BaseKeyText(run, i);
    BaseKeyText(run, j);
    PaddedOrder(i, j);
    OrderInside("runs/", run + "/", "rounds/", Padded(i), Padded(j), "/" + "base.safetensors");
  }
}
