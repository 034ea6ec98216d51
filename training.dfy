/**
 * The schema step of train/train_model.py: choosing the target column,
 * splitting it and `employee_id` off the feature columns, and the column
 * lists the preprocessor selects. Only column names are modelled; the frame
 * is its sequence of column labels.
 */
module Training {
  import opened Wrappers
  import Service
  import FeatureTable

  const TARGET: string := "ewa_next15"
  const LEGACY_TARGET: string := "label_request_next_cycle"
  const ID_COLUMN: string := "employee_id"

  /** pandas' `KeyError`, carrying the labels that were not found, in the order asked for. */
  datatype KeyError = KeyError(missing: seq<string>)

  /** The outcome of lines 18-19: the label column `y` and the feature columns of `X`. */
  datatype Split = Split(target: string, features: seq<string>)

  /** `cols` with every occurrence of every name in `labels` removed, the rest in order. */
  function Without(cols: seq<string>, labels: seq<string>): seq<string>
  {
    if |cols| == 0 then []
    else
      var last := cols[|cols| - 1];
      Without(cols[..|cols| - 1], labels) + (if last in labels then [] else [last])
  }

  /** A column survives exactly when it was there and is not one of the removed labels. */
  lemma {:induction false} WithoutMembers(cols: seq<string>, labels: seq<string>, c: string)
    ensures c in Without(cols, labels) <==> c in cols && c !in labels
  {
    if |cols| > 0 {
      var init := cols[..|cols| - 1];
      WithoutMembers(init, labels, c);
      assert cols == init + [cols[|cols| - 1]];
    }
  }

  /** Removal distributes over concatenation, so the kept columns stay in their original order. */
  lemma {:induction false} WithoutConcat(a: seq<string>, b: seq<string>, labels: seq<string>)
    ensures Without(a + b, labels) == Without(a, labels) + Without(b, labels)
  {
    if |b| > 0 {
      var init := b[..|b| - 1];
      assert (a + b)[..|a + b| - 1] == a + init;
      WithoutConcat(a, init, labels);
    } else {
      assert a + b == a;
    }
  }

  /** Removing labels that are absent changes nothing. */
  lemma {:induction false} WithoutAbsent(cols: seq<string>, labels: seq<string>)
    requires forall i :: 0 <= i < |cols| ==> cols[i] !in labels
    ensures Without(cols, labels) == cols
  {
    if |cols| > 0 {
      WithoutAbsent(cols[..|cols| - 1], labels);
    }
  }

  /** Removing a second list after a first is removing both at once. */
  lemma {:induction false} WithoutTwice(cols: seq<string>, first: seq<string>, second: seq<string>)
    ensures Without(Without(cols, first), second) == Without(cols, first + second)
  {
    if |cols| > 0 {
      var init := cols[..|cols| - 1];
      var last := cols[|cols| - 1];
      WithoutTwice(init, first, second);
      WithoutConcat(Without(init, first), if last in first then [] else [last], second);
    }
  }

  /** The labels of `labels` that `cols` does not have, in the order asked for. */
  function Missing(labels: seq<string>, cols: seq<string>): (m: seq<string>)
    ensures forall l :: l in m <==> l in labels && l !in cols
  {
    if |labels| == 0 then []
    else
      var last := labels[|labels| - 1];
      Missing(labels[..|labels| - 1], cols) + (if last in cols then [] else [last])
  }

  /** Nothing is missing exactly when every label is present. */
  lemma MissingEmpty(labels: seq<string>, cols: seq<string>)
    ensures |Missing(labels, cols)| == 0 <==> forall l :: l in labels ==> l in cols
  {
    var m := Missing(labels, cols);
    if |m| > 0 {
      assert m[0] in m;
    }
  }

  /** A single absent label is reported on its own. */
  lemma MissingOne(l: string, cols: seq<string>)
    requires l !in cols
    ensures Missing([l], cols) == [l]
  {
    assert [l][..0] == [];
  }

  /** `df.drop(labels, axis=1)`: fails with the missing labels when any is absent. */
  function DropColumns(cols: seq<string>, labels: seq<string>): (r: Result<seq<string>, KeyError>)
    ensures r.Err? <==> exists l :: l in labels && l !in cols
    ensures r.Err? ==> r.error.missing == Missing(labels, cols) && |r.error.missing| > 0
    ensures r.Ok? ==> forall c :: c in r.value <==> c in cols && c !in labels
  {
    var m := Missing(labels, cols);
    MissingEmpty(labels, cols);
    if |m| > 0 then
      Err(KeyError(m))
    else
      var kept := Without(cols, labels);
      assert forall c :: c in kept <==> c in cols && c !in labels by {
        forall c ensures c in kept <==> c in cols && c !in labels {
          WithoutMembers(cols, labels, c);
        }
      }
      Ok(kept)
  }

  /** `df.pop(name)`: the columns without `name`, or the `KeyError` when it is absent. */
  function PopColumn(cols: seq<string>, name: string): (r: Result<seq<string>, KeyError>)
    ensures r.Err? <==> name !in cols
    ensures r.Err? ==> r.error == KeyError([name])
  {
    if name in cols then Ok(Without(cols, [name])) else Err(KeyError([name]))
  }

  /**
   * Lines 18-19 on a frame with columns `cols`: with `ewa_next15` present it
   * is the label and both it and `employee_id` are dropped; otherwise
   * `label_request_next_cycle` is popped (a `KeyError` when absent) and only
   * `employee_id` is dropped from what is left.
   */
  function SplitColumns(cols: seq<string>): Result<Split, KeyError>
  {
    if TARGET in cols then
      match DropColumns(cols, [ID_COLUMN, TARGET])
      case Ok(features) => Ok(Split(TARGET, features))
      case Err(e) => Err(e)
    else
      match PopColumn(cols, LEGACY_TARGET)
      case Err(e) => Err(e)
      case Ok(rest) =>
        match DropColumns(rest, [ID_COLUMN])
        case Ok(features) => Ok(Split(LEGACY_TARGET, features))
        case Err(e) => Err(e)
  }

  /** The columns of `df` after lines 18-19: only the pop changes them, even if the drop then fails. */
  function ColumnsAfterSplit(cols: seq<string>): seq<string>
  {
    if TARGET !in cols && LEGACY_TARGET in cols then Without(cols, [LEGACY_TARGET]) else cols
  }

  /** The training frame, as far as lines 18-19 touch it: its column labels. */
  class Frame {
    var columns: seq<string>

    constructor (cols: seq<string>)
      ensures columns == cols
    {
      columns := cols;
    }

    /** `df.pop(name)`: removes the column in place and hands its name back. */
    method Pop(name: string) returns (r: Result<string, KeyError>)
      modifies this
      ensures name in old(columns) ==> r == Ok(name) && columns == Without(old(columns), [name])
      ensures name !in old(columns) ==> r == Err(KeyError([name])) && columns == old(columns)
    {
      if name in columns {
        columns := Without(columns, [name]);
        r := Ok(name);
      } else {
        r := Err(KeyError([name]));
      }
    }

    /** `df.drop(labels, axis=1)`: a new frame's columns; this one is untouched. */
    function Drop(labels: seq<string>): Result<seq<string>, KeyError>
      reads this
    {
      DropColumns(columns, labels)
    }

    /** Lines 18-19, in the order the script runs them. */
    method SplitTargetFeatures() returns (r: Result<Split, KeyError>)
      modifies this
      ensures r == SplitColumns(old(columns))
      ensures columns == ColumnsAfterSplit(old(columns))
    {
      if TARGET in columns {
        var x := Drop([ID_COLUMN, TARGET]);
        r := if x.Ok? then Ok(Split(TARGET, x.value)) else Err(x.error);
      } else {
        var y := Pop(LEGACY_TARGET);
        if y.Err? {
          r := Err(y.error);
        } else {
          var x := Drop([ID_COLUMN]);
          r := if x.Ok? then Ok(Split(LEGACY_TARGET, x.value)) else Err(x.error);
        }
      }
    }
  }

  /**
   * The split succeeds exactly when `employee_id` is present together with one
   * of the two label columns, and its target is `ewa_next15` whenever that
   * column exists.
   */
  lemma SplitSucceeds(cols: seq<string>)
    ensures SplitColumns(cols).Ok? <==> ID_COLUMN in cols && (TARGET in cols || LEGACY_TARGET in cols)
    ensures SplitColumns(cols).Ok? ==>
      SplitColumns(cols).value.target == if TARGET in cols then TARGET else LEGACY_TARGET
  {
    if TARGET !in cols && LEGACY_TARGET in cols {
      WithoutMembers(cols, [LEGACY_TARGET], ID_COLUMN);
    }
  }

  /** The errors: the missing label column when neither is present, else the missing `employee_id`. */
  lemma SplitErrors(cols: seq<string>)
    ensures TARGET !in cols && LEGACY_TARGET !in cols ==> SplitColumns(cols) == Err(KeyError([LEGACY_TARGET]))
    ensures (TARGET in cols || LEGACY_TARGET in cols) && ID_COLUMN !in cols ==>
      SplitColumns(cols) == Err(KeyError([ID_COLUMN]))
  {
    if TARGET !in cols && LEGACY_TARGET in cols && ID_COLUMN !in cols {
      var rest := Without(cols, [LEGACY_TARGET]);
      WithoutMembers(cols, [LEGACY_TARGET], ID_COLUMN);
      MissingOne(ID_COLUMN, rest);
    }
    if TARGET in cols && ID_COLUMN !in cols {
      MissingOne(ID_COLUMN, cols);
      assert [ID_COLUMN, TARGET][..1] == [ID_COLUMN];
      assert Missing([ID_COLUMN, TARGET], cols) == [ID_COLUMN];
      assert DropColumns(cols, [ID_COLUMN, TARGET]).Err?;
    }
  }

  /**
   * In both branches the features are the original columns with `employee_id`
   * and the chosen target removed and everything else kept in order; in
   * particular neither of those two is a feature.
   */
  lemma SplitFeatures(cols: seq<string>)
    requires SplitColumns(cols).Ok?
    ensures SplitColumns(cols).value.features == Without(cols, [ID_COLUMN, SplitColumns(cols).value.target])
    ensures SplitColumns(cols).value.target !in SplitColumns(cols).value.features
    ensures ID_COLUMN !in SplitColumns(cols).value.features
  {
    var s := SplitColumns(cols).value;
    if TARGET !in cols {
      WithoutTwice(cols, [LEGACY_TARGET], [ID_COLUMN]);
      assert Without(cols, [LEGACY_TARGET] + [ID_COLUMN]) == Without(cols, [ID_COLUMN, LEGACY_TARGET]) by {
        WithoutSameLabels(cols, [LEGACY_TARGET] + [ID_COLUMN], [ID_COLUMN, LEGACY_TARGET]);
      }
    }
    WithoutMembers(cols, [ID_COLUMN, s.target], s.target);
    WithoutMembers(cols, [ID_COLUMN, s.target], ID_COLUMN);
  }

  /** Only which labels are removed matters, not their order or repetition. */
  lemma {:induction false} WithoutSameLabels(cols: seq<string>, a: seq<string>, b: seq<string>)
    requires forall l :: l in a <==> l in b
    ensures Without(cols, a) == Without(cols, b)
  {
    if |cols| > 0 {
      WithoutSameLabels(cols[..|cols| - 1], a, b);
    }
  }

  /**
   * With both label columns present the legacy one is not removed: it stays
   * among the features.
   */
  lemma LegacyLabelKept(cols: seq<string>)
    requires ID_COLUMN in cols && TARGET in cols && LEGACY_TARGET in cols
    ensures SplitColumns(cols).Ok? && LEGACY_TARGET in SplitColumns(cols).value.features
  {
    MissingEmpty([ID_COLUMN, TARGET], cols);
    WithoutMembers(cols, [ID_COLUMN, TARGET], LEGACY_TARGET);
  }

  /** Two strings that differ at position `k`, or where the other one is too short, are different. */
  lemma AbsentByPosition(s: string, cols: seq<string>, k: nat)
    requires k < |s|
    requires forall i :: 0 <= i < |cols| ==> |cols[i]| <= k || cols[i][k] != s[k]
    ensures s !in cols
  {
  }

  /**
   * A table laid out as the generator lays it out, `employee_id` first and
   * `ewa_next15` last, splits into that label and exactly the columns between.
   */
  lemma SplitOfGeneratedLayout(middle: seq<string>)
    requires ID_COLUMN !in middle && TARGET !in middle
    ensures SplitColumns([ID_COLUMN] + middle + [TARGET]) == Ok(Split(TARGET, middle))
  {
    var cols := [ID_COLUMN] + middle + [TARGET];
    var labels := [ID_COLUMN, TARGET];
    assert Without(cols, labels) == middle by {
      assert forall i :: 0 <= i < |middle| ==> middle[i] !in labels by {
        forall i | 0 <= i < |middle| ensures middle[i] !in labels {
          assert middle[i] in middle;
        }
      }
      WithoutAbsent(middle, labels);
      WithoutConcat([ID_COLUMN] + middle, [TARGET], labels);
      WithoutConcat([ID_COLUMN], middle, labels);
      WithoutRemoved(ID_COLUMN, labels);
      WithoutRemoved(TARGET, labels);
    }
    assert Missing(labels, cols) == [] by {
      assert cols[0] == ID_COLUMN && cols[|cols| - 1] == TARGET;
      MissingEmpty(labels, cols);
    }
  }

  /** A column that is one of the labels is removed. */
  lemma WithoutRemoved(c: string, labels: seq<string>)
    requires c in labels
    ensures Without([c], labels) == []
  {
    assert [c][..0] == [];
  }

  /**
   * On the table the generator writes, the label is `ewa_next15` and the
   * features are the 21 columns between `employee_id` and it.
   */
  lemma SplitOfOfflineTable()
    ensures SplitColumns(FeatureTable.OFFLINE_COLUMNS)
      == Ok(Split(TARGET, FeatureTable.OFFLINE_COLUMNS[1..|FeatureTable.OFFLINE_COLUMNS| - 1]))
  {
    var cols := FeatureTable.OFFLINE_COLUMNS;
    var n := |cols|;
    var middle := cols[1..n - 1];
    assert cols == [cols[0]] + middle + [cols[n - 1]];
    OfflineMiddleColumns();
    SplitOfGeneratedLayout(middle);
  }

  /** Neither `employee_id` nor `ewa_next15` occurs between the first and the last generated column. */
  lemma OfflineMiddleColumns()
    ensures ID_COLUMN !in FeatureTable.OFFLINE_COLUMNS[1..|FeatureTable.OFFLINE_COLUMNS| - 1]
    ensures TARGET !in FeatureTable.OFFLINE_COLUMNS[1..|FeatureTable.OFFLINE_COLUMNS| - 1]
  {
    var cols := FeatureTable.OFFLINE_COLUMNS;
    var middle := cols[1..|cols| - 1];
    forall i | 0 <= i < |middle|
      ensures |middle[i]| > 6 && middle[i][1] != 'm' && middle[i][6] != 'x'
    {
      assert middle[i] == cols[i + 1];
    }
    assert ID_COLUMN[1] == 'm' && TARGET[6] == 'x';
    AbsentByPosition(ID_COLUMN, middle, 1);
    AbsentByPosition(TARGET, middle, 6);
  }

  /** `num_cols`: the numeric columns the preprocessor scales. */
  const NUM_COLS: seq<string> := [
    "salary_monthly", "tenure_days", "avg_withdraw_amount", "avg_withdraw_pct_of_salary",
    "last_withdraw_days_ago", "savings_balance"]

  /** `cat_cols`: the categorical columns the preprocessor one-hot encodes. */
  const CAT_COLS: seq<string> := ["department", "job_level"]

  /** No column is both scaled and encoded, and every selected column is a field of the serving request. */
  lemma PreprocessorColumns()
    ensures forall c :: c in NUM_COLS ==> c !in CAT_COLS
    ensures forall c :: c in NUM_COLS + CAT_COLS ==> c in Service.EMPLOYEE_FIELDS
  {
  }

  /** Three of the numeric columns are request fields the generated table never writes. */
  lemma NumericColumnsNotGenerated()
    ensures "avg_withdraw_amount" in NUM_COLS && "avg_withdraw_amount" !in FeatureTable.OFFLINE_COLUMNS
    ensures "avg_withdraw_pct_of_salary" in NUM_COLS && "avg_withdraw_pct_of_salary" !in FeatureTable.OFFLINE_COLUMNS
    ensures "last_withdraw_days_ago" in NUM_COLS && "last_withdraw_days_ago" !in FeatureTable.OFFLINE_COLUMNS
  {
    var cols := FeatureTable.OFFLINE_COLUMNS;
    AbsentByPosition(NUM_COLS[2], cols, 0);
    AbsentByPosition(NUM_COLS[3], cols, 0);
    AbsentByPosition(NUM_COLS[4], cols, 0);
  }
}
