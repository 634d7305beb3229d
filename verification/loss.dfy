/** The loss rule of the terminal layer: the label remapping done before training, and the
    derivative and scalar loss the backward pass computes for the "SVM" and "sigmoid" functions. */
module Loss {
  import opened Errors
  import opened Matrix

  /** The label remapping 2*l - 1 applied once, before training, when the last layer's function
      is "SVM". */
  function Remap(l: real): real {
    2.0 * l - 1.0
  }

  /** Remaps every label entry; (r + 1) / 2 recovers the original entry. */
  function RemapLabels(labels: Mat): (r: Mat)
    ensures SameShape(r, labels)
    ensures forall i, j :: 0 <= i < r.rows && 0 <= j < r.cols ==>
              (r.cells[i][j] + 1.0) / 2.0 == labels.cells[i][j]
  {
    MapEntries(labels, Remap)
  }

  /** Every entry is 0 or 1. */
  predicate Binary(m: Mat) {
    forall i, j :: 0 <= i < m.rows && 0 <= j < m.cols ==> m.cells[i][j] == 0.0 || m.cells[i][j] == 1.0
  }

  /** Every entry is -1 or +1. */
  predicate Signs(m: Mat) {
    forall i, j :: 0 <= i < m.rows && 0 <= j < m.cols ==> m.cells[i][j] == -1.0 || m.cells[i][j] == 1.0
  }

  /** Remapping sends 0 to -1 and 1 to +1, so {0,1} labels become {-1,+1} labels. */
  lemma RemapBinaryGivesSigns(labels: Mat)
    requires Binary(labels)
    ensures Signs(RemapLabels(labels))
    ensures forall i, j :: 0 <= i < labels.rows && 0 <= j < labels.cols ==>
              (RemapLabels(labels).cells[i][j] == -1.0 <==> labels.cells[i][j] == 0.0)
  {
  }

  /** The clipped hinge margin max(0, 1 - p*y). */
  function Margin(p: real, y: real): (m: real)
    ensures m >= 0.0 && m >= 1.0 - p * y
    ensures m == 0.0 || m == 1.0 - p * y
    ensures m == 0.0 <==> p * y >= 1.0
  {
    if 1.0 - p * y > 0.0 then 1.0 - p * y else 0.0
  }

  /** The scalar loss divided by the batch size; an empty batch gives 0. */
  function Average(total: real, count: nat): real {
    if count == 0 then 0.0 else total / (count as real)
  }

  /** The derivative handed to the last layer and the batch's scalar loss. */
  datatype Terminal = Terminal(derivative: Mat, loss: real)

  /** "SVM": margin = max(0, 1 - p*y), derivative = -2 * margin * y,
      loss = sum of squared margins / batch size. */
  function SvmRule(pred: Mat, labels: Mat): Terminal
    requires SameShape(pred, labels)
  {
    var margins := Zip(pred, labels, Margin);
    Terminal(Zip(margins, labels, (m, y) => -2.0 * m * y), Average(Sum(Squares(margins)), labels.cols))
  }

  /** "sigmoid": derivative = p - y, loss = sum of squared derivatives / (2 * batch size). */
  function SigmoidRule(pred: Mat, labels: Mat): Terminal
    requires SameShape(pred, labels)
  {
    var der := Zip(pred, labels, (p, y) => p - y);
    Terminal(der, Average(Sum(Squares(der)), 2 * labels.cols))
  }

  predicate KnownFunction(name: string) {
    name == "SVM" || name == "sigmoid"
  }

  /** Selects the loss rule by the last layer's function name; there is no default rule. */
  function TerminalLoss(name: string, pred: Mat, labels: Mat): (r: Result<Terminal>)
    requires SameShape(pred, labels)
    ensures r.Ok? <==> KnownFunction(name)
    ensures r.Fail? ==> r.error == UnknownFunction(name)
    ensures r.Ok? ==> SameShape(r.value.derivative, labels) && r.value.loss >= 0.0
  {
    if name == "SVM" then
      SvmLossProperties(pred, labels);
      Ok(SvmRule(pred, labels))
    else if name == "sigmoid" then
      SigmoidLossProperties(pred, labels);
      Ok(SigmoidRule(pred, labels))
    else Fail(UnknownFunction(name))
  }

  /** The rule each function name selects. "SVM" is the squared hinge: its derivative is
      -2 * max(0, 1 - p*y) * y, it vanishes where the margin is met, the loss is the mean of the
      squared margins and is zero exactly when every margin is met. "sigmoid" is the squared
      error: its derivative is p - y, the loss is the sum of its squares over twice the batch
      size and is zero exactly when the prediction equals the labels. */
  lemma TerminalLossRules(name: string, pred: Mat, labels: Mat)
    requires SameShape(pred, labels)
    ensures var r := TerminalLoss(name, pred, labels);
            name == "SVM" ==>
              && r.Ok?
              && (forall i, j :: 0 <= i < pred.rows && 0 <= j < pred.cols ==>
                    r.value.derivative.cells[i][j] == -2.0 * Margin(pred.cells[i][j], labels.cells[i][j]) * labels.cells[i][j])
              && (forall i, j :: 0 <= i < pred.rows && 0 <= j < pred.cols && pred.cells[i][j] * labels.cells[i][j] >= 1.0 ==>
                    r.value.derivative.cells[i][j] == 0.0)
              && r.value.loss == Average(Sum(Squares(Zip(pred, labels, Margin))), labels.cols)
              && (r.value.loss == 0.0 <==> MarginsMet(pred, labels))
    ensures var r := TerminalLoss(name, pred, labels);
            name == "sigmoid" ==>
              && r.Ok?
              && (forall i, j :: 0 <= i < pred.rows && 0 <= j < pred.cols ==>
                    r.value.derivative.cells[i][j] == pred.cells[i][j] - labels.cells[i][j])
              && r.value.loss == Average(Sum(Squares(r.value.derivative)), 2 * labels.cols)
              && (r.value.loss == 0.0 <==>
                    forall i, j :: 0 <= i < pred.rows && 0 <= j < pred.cols ==> pred.cells[i][j] == labels.cells[i][j])
  {
    if name == "SVM" {
      SvmRuleEntries(pred, labels);
      SvmLossProperties(pred, labels);
      SvmDerivativeVanishes(pred, labels);
    } else if name == "sigmoid" {
      SigmoidLossProperties(pred, labels);
    }
  }

  /** The SVM derivative entry by entry, and the loss as the mean of the squared margins. */
  lemma SvmRuleEntries(pred: Mat, labels: Mat)
    requires SameShape(pred, labels)
    ensures SameShape(SvmRule(pred, labels).derivative, labels)
    ensures forall i, j :: 0 <= i < pred.rows && 0 <= j < pred.cols ==>
              SvmRule(pred, labels).derivative.cells[i][j] == -2.0 * Margin(pred.cells[i][j], labels.cells[i][j]) * labels.cells[i][j]
    ensures SvmRule(pred, labels).loss == Average(Sum(Squares(Zip(pred, labels, Margin))), labels.cols)
  {
    var margins := Zip(pred, labels, Margin);
    forall i, j | 0 <= i < pred.rows && 0 <= j < pred.cols
      ensures SvmRule(pred, labels).derivative.cells[i][j] == -2.0 * Margin(pred.cells[i][j], labels.cells[i][j]) * labels.cells[i][j]
    {
      assert margins.cells[i][j] == Margin(pred.cells[i][j], labels.cells[i][j]);
    }
  }

  /** Every prediction clears its label's margin: p * y >= 1. */
  predicate MarginsMet(pred: Mat, labels: Mat)
    requires SameShape(pred, labels)
  {
    forall i, j :: 0 <= i < pred.rows && 0 <= j < pred.cols ==> pred.cells[i][j] * labels.cells[i][j] >= 1.0
  }

  /** The SVM loss is non-negative and is zero exactly when every margin is met. */
  lemma SvmLossProperties(pred: Mat, labels: Mat)
    requires SameShape(pred, labels)
    ensures SvmRule(pred, labels).loss >= 0.0
    ensures SvmRule(pred, labels).loss == 0.0 <==> MarginsMet(pred, labels)
  {
    var margins := Zip(pred, labels, Margin);
    var sq := Squares(margins);
    SumNonNegative(sq);
    forall i, j | 0 <= i < sq.rows && 0 <= j < sq.cols
      ensures sq.cells[i][j] == 0.0 <==> pred.cells[i][j] * labels.cells[i][j] >= 1.0
    {
      assert margins.cells[i][j] == Margin(pred.cells[i][j], labels.cells[i][j]);
    }
    AverageZero(Sum(sq), labels.cols);
  }

  /** The SVM derivative vanishes at every entry whose margin is met. */
  lemma SvmDerivativeVanishes(pred: Mat, labels: Mat)
    requires SameShape(pred, labels)
    ensures forall i, j :: 0 <= i < pred.rows && 0 <= j < pred.cols ==>
              (pred.cells[i][j] * labels.cells[i][j] >= 1.0 ==> SvmRule(pred, labels).derivative.cells[i][j] == 0.0)
  {
    var margins := Zip(pred, labels, Margin);
    forall i, j | 0 <= i < pred.rows && 0 <= j < pred.cols && pred.cells[i][j] * labels.cells[i][j] >= 1.0
      ensures SvmRule(pred, labels).derivative.cells[i][j] == 0.0
    {
      assert margins.cells[i][j] == 0.0;
    }
  }

  /** With {-1,+1} labels the squared SVM derivative is four times the squared margin, so the
      loss is also the sum of squared derivatives over 4 * batch size. */
  lemma SvmLossFromDerivative(pred: Mat, labels: Mat)
    requires SameShape(pred, labels)
    requires Signs(labels)
    ensures SvmRule(pred, labels).loss == Average(Sum(Squares(SvmRule(pred, labels).derivative)), 4 * labels.cols)
  {
    var margins := Zip(pred, labels, Margin);
    var d2 := Squares(SvmRule(pred, labels).derivative);
    var m2 := Squares(margins);
    forall i, j | 0 <= i < d2.rows && 0 <= j < d2.cols
      ensures d2.cells[i][j] == 4.0 * m2.cells[i][j]
    {
      SvmEntrySquare(pred, labels, i, j);
    }
    SumScale(d2, m2, 4.0);
    AverageScale(Sum(m2), labels.cols);
  }

  /** One entry of SvmLossFromDerivative: the squared derivative is four squared margins. */
  lemma SvmEntrySquare(pred: Mat, labels: Mat, i: nat, j: nat)
    requires SameShape(pred, labels)
    requires i < labels.rows && j < labels.cols
    requires labels.cells[i][j] == -1.0 || labels.cells[i][j] == 1.0
    ensures Squares(SvmRule(pred, labels).derivative).cells[i][j] == 4.0 * Squares(Zip(pred, labels, Margin)).cells[i][j]
  {
    var margins := Zip(pred, labels, Margin);
    var m, y := margins.cells[i][j], labels.cells[i][j];
    assert SvmRule(pred, labels).derivative.cells[i][j] == -2.0 * m * y;
    SignedSquare(m, y);
  }

  lemma SignedSquare(m: real, y: real)
    requires y == -1.0 || y == 1.0
    ensures Square(-2.0 * m * y) == 4.0 * Square(m)
  {
  }

  lemma AverageScale(total: real, count: nat)
    ensures Average(4.0 * total, 4 * count) == Average(total, count)
  {
  }

  /** The sigmoid loss is non-negative and is zero exactly when every prediction equals its
      label; the derivative is the prediction minus the label, so label + derivative = prediction. */
  lemma SigmoidLossProperties(pred: Mat, labels: Mat)
    requires SameShape(pred, labels)
    ensures SigmoidRule(pred, labels).loss >= 0.0
    ensures SigmoidRule(pred, labels).loss == 0.0 <==>
              forall i, j :: 0 <= i < pred.rows && 0 <= j < pred.cols ==>
                pred.cells[i][j] == labels.cells[i][j]
    ensures SameShape(SigmoidRule(pred, labels).derivative, labels)
    ensures forall i, j :: 0 <= i < pred.rows && 0 <= j < pred.cols ==>
              SigmoidRule(pred, labels).derivative.cells[i][j] == pred.cells[i][j] - labels.cells[i][j]
    ensures SigmoidRule(pred, labels).loss == Average(Sum(Squares(SigmoidRule(pred, labels).derivative)), 2 * labels.cols)
  {
    var der := Zip(pred, labels, (p, y) => p - y);
    var sq := Squares(der);
    SumNonNegative(sq);
    var equal := forall i, j :: 0 <= i < pred.rows && 0 <= j < pred.cols ==>
                   pred.cells[i][j] == labels.cells[i][j];
    var zero := forall i, j :: 0 <= i < sq.rows && 0 <= j < sq.cols ==> sq.cells[i][j] == 0.0;
    assert zero <==> equal;
    AverageZero(Sum(sq), 2 * labels.cols);
  }

  lemma AverageZero(total: real, count: nat)
    requires total >= 0.0
    ensures Average(total, count) >= 0.0
    ensures count > 0 ==> (Average(total, count) == 0.0 <==> total == 0.0)
  {
  }
}
