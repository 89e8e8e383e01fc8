/**
 * Checkpoint bookkeeping of main.py: the rotating retention of checkpoint files,
 * the zero-padded file names that make name order iteration order, the recovery of
 * the latest snapshot from the checkpoint files, and the precedence of the three
 * sources load_checkpoint consults. Reading and writing files is not modelled: the
 * loaders' results are inputs, and the files to delete are an output.
 */
module Checkpoints {
  import opened Entities

  const MAX_CHECKPOINT_FILES: int := 20
  const CHECKPOINT_DIR: string := "checkpoints"

  // ---------------------------------------------------------------------------
  // Python's string order.
  // ---------------------------------------------------------------------------

  /** `a < b` on Python strings: code-point order, with a proper prefix first. */
  predicate LexLess(a: string, b: string)
  {
    if a == [] then b != []
    else if b == [] then false
    else if a[0] != b[0] then a[0] < b[0]
    else LexLess(a[1..], b[1..])
  }

  predicate LexLe(a: string, b: string)
  {
    a == b || LexLess(a, b)
  }

  lemma {:induction false} LexLessIrreflexive(a: string)
    ensures !LexLess(a, a)
  {
    if a != [] {
      LexLessIrreflexive(a[1..]);
    }
  }

  /** Two different strings are ordered one way or the other, and never both ways. */
  lemma {:induction false} LexLessTotal(a: string, b: string)
    ensures a != b ==> (LexLess(a, b) || LexLess(b, a))
    ensures !(LexLess(a, b) && LexLess(b, a))
  {
    if a != [] && b != [] && a[0] == b[0] {
      LexLessTotal(a[1..], b[1..]);
      assert a != b ==> a[1..] != b[1..] by {
        if a[1..] == b[1..] {
          assert a == [a[0]] + a[1..] && b == [b[0]] + b[1..];
        }
      }
    }
  }

  /** A common prefix does not change the order. */
  lemma {:induction false} LexLessCommonPrefix(p: string, a: string, b: string)
    ensures LexLess(p + a, p + b) <==> LexLess(a, b)
  {
    if p != [] {
      assert (p + a)[0] == p[0] && (p + b)[0] == p[0];
      assert (p + a)[1..] == p[1..] + a && (p + b)[1..] == p[1..] + b;
      LexLessCommonPrefix(p[1..], a, b);
    } else {
      assert p + a == a && p + b == b;
    }
  }

  /** Between two different strings of equal length, what follows does not change the order. */
  lemma {:induction false} LexLessSameLength(x: string, y: string, s: string, t: string)
    requires |x| == |y| && x != y
    ensures LexLess(x + s, y + t) <==> LexLess(x, y)
  {
    assert (x + s)[0] == x[0] && (y + t)[0] == y[0];
    assert x == [x[0]] + x[1..] && y == [y[0]] + y[1..];
    if x[0] == y[0] {
      assert x[1..] != y[1..];
      assert (x + s)[1..] == x[1..] + s && (y + t)[1..] == y[1..] + t;
      LexLessSameLength(x[1..], y[1..], s, t);
    }
  }

  /** Between two strings of equal length, a character added to both is compared only when they are equal. */
  lemma LexLessSnoc(p: string, q: string, x: char, y: char)
    requires |p| == |q|
    ensures LexLess(p + [x], q + [y]) <==> LexLess(p, q) || (p == q && x < y)
  {
    if p == q {
      LexLessCommonPrefix(p, [x], [y]);
      LexLessIrreflexive(p);
    } else {
      LexLessSameLength(p, q, [x], [y]);
    }
  }

  // ---------------------------------------------------------------------------
  // Checkpoint file names: f"checkpoint_{iteration:08d}.json" (main.py:126).
  // ---------------------------------------------------------------------------

  function DigitChar(d: int): (c: char)
    requires 0 <= d < 10
    ensures '0' <= c <= '9'
  {
    ('0' as int + d) as char
  }

  function Pow10(w: nat): (p: nat)
    ensures p >= 1
  {
    if w == 0 then 1 else 10 * Pow10(w - 1)
  }

  /** str(n): decimal digits without leading zeros. */
  function Decimal(n: nat): (s: string)
    ensures |s| >= 1
    ensures forall i :: 0 <= i < |s| ==> '0' <= s[i] <= '9'
  {
    if n < 10 then [DigitChar(n)] else Decimal(n / 10) + [DigitChar(n % 10)]
  }

  function Zeros(k: nat): (s: string)
    ensures |s| == k && forall i :: 0 <= i < k ==> s[i] == '0'
  {
    seq(k, _ => '0')
  }

  /** The `08d` format: left-pad with zeros up to the width; longer numbers keep all their digits. */
  function PadZeros(s: string, width: nat): (r: string)
    ensures |r| == if |s| >= width then |s| else width
  {
    if |s| >= width then s else Zeros(width - |s|) + s
  }

  function CheckpointName(iteration: nat): string
  {
    "checkpoint_" + PadZeros(Decimal(iteration), 8) + ".json"
  }

  /** os.path.join(CHECKPOINT_DIR, name) */
  function CheckpointPath(iteration: nat): string
  {
    CHECKPOINT_DIR + "/" + CheckpointName(iteration)
  }

  /** The last w decimal digits of n, most significant first: a reference form of the padded number. */
  function Fixed(n: nat, w: nat): (s: string)
    ensures |s| == w
  {
    if w == 0 then [] else Fixed(n / 10, w - 1) + [DigitChar(n % 10)]
  }

  lemma {:induction false} FixedOfZero(w: nat)
    ensures Fixed(0, w) == Zeros(w)
  {
    if w > 0 {
      FixedOfZero(w - 1);
    }
  }

  /** A number below 10^w has at most w digits, and its last w digits are those digits after w minus that many zeros. */
  lemma {:induction false} FixedDigits(n: nat, w: nat)
    requires 1 <= w && n < Pow10(w)
    ensures |Decimal(n)| <= w
    ensures Fixed(n, w) == Zeros(w - |Decimal(n)|) + Decimal(n)
  {
    if n < 10 {
      FixedOfZero(w - 1);
    } else {
      assert n / 10 < Pow10(w - 1);
      FixedDigits(n / 10, w - 1);
      var z := Zeros(w - 1 - |Decimal(n / 10)|);
      assert Fixed(n, w) == z + Decimal(n / 10) + [DigitChar(n % 10)];
      assert z + Decimal(n / 10) + [DigitChar(n % 10)] == z + Decimal(n);
    }
  }

  /** Below 10^w, the zero-padded decimal form of width w is the last w digits. */
  lemma FixedIsPadded(n: nat, w: nat)
    requires 1 <= w && n < Pow10(w)
    ensures PadZeros(Decimal(n), w) == Fixed(n, w)
  {
    FixedDigits(n, w);
    if |Decimal(n)| == w {
      assert Zeros(0) + Decimal(n) == Decimal(n);
    }
  }

  lemma DigitCharOrder(x: int, y: int)
    requires 0 <= x < 10 && 0 <= y < 10
    ensures DigitChar(x) < DigitChar(y) <==> x < y
    ensures DigitChar(x) == DigitChar(y) <==> x == y
  {
  }

  /** Between numbers below 10^w, the order of their last w digits is the numeric order. */
  lemma {:induction false} FixedOrder(a: nat, b: nat, w: nat)
    requires a < Pow10(w) && b < Pow10(w)
    ensures LexLess(Fixed(a, w), Fixed(b, w)) <==> a < b
    ensures Fixed(a, w) == Fixed(b, w) <==> a == b
  {
    if w == 0 {
      assert a == 0 && b == 0;
    } else {
      FixedOrder(a / 10, b / 10, w - 1);
      LexLessSnoc(Fixed(a / 10, w - 1), Fixed(b / 10, w - 1), DigitChar(a % 10), DigitChar(b % 10));
      DigitCharOrder(a % 10, b % 10);
      assert Fixed(a, w) == Fixed(b, w) ==> Fixed(a / 10, w - 1) == Fixed(b / 10, w - 1) && a % 10 == b % 10 by {
        if Fixed(a, w) == Fixed(b, w) {
          assert Fixed(a, w)[..w - 1] == Fixed(a / 10, w - 1);
          assert Fixed(b, w)[..w - 1] == Fixed(b / 10, w - 1);
          assert Fixed(a, w)[w - 1] == DigitChar(a % 10);
          assert Fixed(b, w)[w - 1] == DigitChar(b % 10);
        }
      }
    }
  }

  /** Below 10^8 a checkpoint path is the fixed prefix, the eight digits, and the suffix. */
  lemma PathShape(a: nat)
    requires a < Pow10(8)
    ensures CheckpointPath(a) == (CHECKPOINT_DIR + "/" + "checkpoint_") + (Fixed(a, 8) + ".json")
  {
    FixedIsPadded(a, 8);
    var p, d := "checkpoint_", Fixed(a, 8);
    assert CheckpointName(a) == p + d + ".json";
    assert p + d + ".json" == p + (d + ".json");
    assert CHECKPOINT_DIR + "/" + (p + (d + ".json")) == (CHECKPOINT_DIR + "/" + p) + (d + ".json");
  }

  /**
   * Below 10^8 iterations the zero padding makes the path order the iteration order,
   * so removing the lexicographically smallest files removes the oldest checkpoints.
   */
  lemma CheckpointPathOrder(a: nat, b: nat)
    requires a < Pow10(8) && b < Pow10(8)
    ensures LexLess(CheckpointPath(a), CheckpointPath(b)) <==> a < b
  {
    var p := CHECKPOINT_DIR + "/" + "checkpoint_";
    PathShape(a);
    PathShape(b);
    FixedOrder(a, b, 8);
    var fa, fb := Fixed(a, 8), Fixed(b, 8);
    LexLessCommonPrefix(p, fa + ".json", fb + ".json");
    if a == b {
      LexLessIrreflexive(fa + ".json");
    } else {
      LexLessSameLength(fa, fb, ".json", ".json");
    }
  }

  // ---------------------------------------------------------------------------
  // Retention (main.py:141-143).
  // ---------------------------------------------------------------------------

  ghost predicate Sorted(files: seq<string>)
  {
    forall i, j :: 0 <= i < j < |files| ==> LexLe(files[i], files[j])
  }

  /** The sorted listing of the checkpoints of strictly increasing iterations below 10^8. */
  lemma PathsSorted(iterations: seq<nat>)
    requires forall i, j :: 0 <= i < j < |iterations| ==> iterations[i] < iterations[j]
    requires forall i :: 0 <= i < |iterations| ==> iterations[i] < Pow10(8)
    ensures Sorted(seq(|iterations|, i requires 0 <= i < |iterations| => CheckpointPath(iterations[i])))
  {
    var files := seq(|iterations|, i requires 0 <= i < |iterations| => CheckpointPath(iterations[i]));
    forall i, j | 0 <= i < j < |files| ensures LexLe(files[i], files[j]) {
      CheckpointPathOrder(iterations[i], iterations[j]);
    }
  }

  /**
   * `while len(files) > MAX_CHECKPOINT_FILES: os.remove(files.pop(0))`. Returns the files kept
   * and, in order, the files to delete: the first ones of the listing, so that at most 20 remain,
   * and in a sorted listing every deleted name precedes every kept one.
   */
  method PruneCheckpoints(listing: seq<string>) returns (files: seq<string>, removed: seq<string>)
    ensures removed + files == listing
    ensures |files| == if |listing| > MAX_CHECKPOINT_FILES then MAX_CHECKPOINT_FILES else |listing|
    ensures Sorted(listing) ==> forall i, j :: 0 <= i < |removed| && 0 <= j < |files| ==> LexLe(removed[i], files[j])
  {
    files, removed := listing, [];
    while |files| > MAX_CHECKPOINT_FILES
      invariant removed + files == listing
      invariant |files| >= MAX_CHECKPOINT_FILES || removed == []
      decreases |files|
    {
      removed := removed + [files[0]];
      files := files[1..];
    }
    if Sorted(listing) {
      forall i, j | 0 <= i < |removed| && 0 <= j < |files| ensures LexLe(removed[i], files[j]) {
        assert removed[i] == listing[i] && files[j] == listing[|removed| + j];
      }
    }
  }

  // ---------------------------------------------------------------------------
  // Recovery from the checkpoint files (main.py:156-185).
  // ---------------------------------------------------------------------------

  /** One checkpoint file as json.load sees it: unreadable, or its iteration and zetas. */
  datatype SnapshotFile = Corrupted | Snapshot(iteration: int, zetas: seq<real>)

  /** What load_checkpoint returns. */
  datatype TrainingState = TrainingState(zetas: seq<real>, iteration: int, history: seq<seq<real>>)

  /** The zetas of the readable files, in listing order. */
  function Readable(files: seq<SnapshotFile>): (h: seq<seq<real>>)
    ensures |h| <= |files|
    ensures h == [] <==> forall i :: 0 <= i < |files| ==> files[i].Corrupted?
  {
    if files == [] then []
    else
      var init := files[..|files| - 1];
      assert forall i :: 0 <= i < |init| ==> init[i] == files[i];
      match files[|files| - 1]
      case Corrupted => Readable(init)
      case Snapshot(_, z) => Readable(init) + [z]
  }

  /** Every readable file contributes its zetas to the history. */
  lemma {:induction false} ReadableMembers(files: seq<SnapshotFile>, i: int)
    requires 0 <= i < |files| && files[i].Snapshot?
    ensures files[i].zetas in Readable(files)
  {
    var init := files[..|files| - 1];
    if i < |init| {
      assert init[i] == files[i];
      ReadableMembers(init, i);
    }
  }

  /** File i holds the largest iteration, and no earlier file holds as large a one. */
  ghost predicate IsLatest(files: seq<SnapshotFile>, i: int)
  {
    0 <= i < |files| && files[i].Snapshot? &&
    (forall j :: 0 <= j < |files| && files[j].Snapshot? ==> files[j].iteration <= files[i].iteration) &&
    (forall j :: 0 <= j < i && files[j].Snapshot? ==> files[j].iteration < files[i].iteration)
  }

  /** The latest file is unique, so ties between equal iterations go to the first. */
  lemma LatestUnique(files: seq<SnapshotFile>, i: int, j: int)
    requires IsLatest(files, i) && IsLatest(files, j)
    ensures i == j
  {
  }

  /** What the recovery loop promises about its result. */
  ghost predicate RecoveredFrom(files: seq<SnapshotFile>, r: Option<TrainingState>)
  {
    (r.None? <==> forall i :: 0 <= i < |files| ==> files[i].Corrupted?) &&
    (r.Some? ==>
       r.value.history == Readable(files) &&
       exists i :: IsLatest(files, i) && r.value.iteration == files[i].iteration && r.value.zetas == files[i].zetas)
  }

  /**
   * The loop over the sorted checkpoint files: skip corrupted ones, collect every readable
   * file's zetas, and keep the first file with the largest iteration (`>` replaces, ties do not).
   */
  method RecoverFromSnapshots(files: seq<SnapshotFile>) returns (r: Option<TrainingState>)
    ensures RecoveredFrom(files, r)
  {
    if |files| == 0 {
      return None;
    }
    var history: seq<seq<real>> := [];
    var latest: Option<nat> := None;
    var n := 0;
    while n < |files|
      invariant 0 <= n <= |files|
      invariant history == Readable(files[..n])
      invariant latest.None? <==> forall i :: 0 <= i < n ==> files[i].Corrupted?
      invariant latest.Some? ==> IsLatest(files[..n], latest.value)
    {
      assert files[..n + 1][..n] == files[..n];
      assert files[..n + 1][n] == files[n];
      match files[n] {
        case Corrupted =>
        case Snapshot(it, z) =>
          history := history + [z];
          if latest.None? || it > files[latest.value].iteration {
            latest := Some(n);
          }
      }
      n := n + 1;
    }
    assert files[..n] == files;
    match latest
    case None => r := None;
    case Some(i) => r := Some(TrainingState(files[i].zetas, files[i].iteration, history));
  }

  /**
   * The legacy json's history: `data.get("history", []) or [data.get("zetas", [])]`,
   * so an absent or empty history becomes the one-entry history of its zetas.
   */
  function LegacyHistory(history: Option<seq<seq<real>>>, zetas: seq<real>): (h: seq<seq<real>>)
    ensures h != []
    ensures history.Some? && history.value != [] ==> h == history.value
    ensures (history.None? || history.value == []) ==> h == [zetas]
  {
    match history
    case Some(hs) => if hs != [] then hs else [zetas]
    case None => [zetas]
  }

  /**
   * load_checkpoint: the training state file wins, then the legacy checkpoint, then the
   * checkpoint files. The two loaders are given by their results (None when the file is
   * absent or corrupted).
   */
  method LoadCheckpoint(state: Option<TrainingState>, legacy: Option<TrainingState>, files: seq<SnapshotFile>)
    returns (r: Option<TrainingState>)
    ensures state.Some? ==> r == state
    ensures state.None? && legacy.Some? ==> r == legacy
    ensures state.None? && legacy.None? ==> RecoveredFrom(files, r)
  {
    if state.Some? {
      return state;
    }
    if legacy.Some? {
      return legacy;
    }
    r := RecoverFromSnapshots(files);
  }
}
