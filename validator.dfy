/**
 * The validator: `Check` and `CheckField` accumulate warnings, the `Verify` family throws once
 * any warning has accumulated, and `Validate` runs a block of guards and throws at its end.
 */
module Validators {
  import opened Wrappers
  import opened Warnings
  import opened Validation

  class Validator {
    const builder: WarnsBuilder

    constructor ()
      ensures fresh(builder) && builder.warns == []
    {
      builder := new WarnsBuilder();
    }

    /** Records a global warning `message` when `valid` is false. */
    method Check(valid: bool, message: string)
      modifies builder
      ensures builder.warns == if valid then old(builder.warns) else old(builder.warns) + [OfGlobal(message, [])]
    {
      if !valid {
        builder.Add(message, []);
      }
    }

    /** Records a warning for `field` when `valid` is false. */
    method CheckField(valid: bool, field: string, message: string)
      modifies builder
      ensures builder.warns ==
        if valid then old(builder.warns) else old(builder.warns) + [Warnings.OfField(field, message, [])]
    {
      if !valid {
        builder.AddField(field, message, []);
      }
    }

    predicate HasWarn()
      reads this, builder
      ensures HasWarn() <==> builder.warns != []
    {
      builder.Build().HasError()
    }

    /** Throws an exception carrying every accumulated warning, in order, if there is one. */
    method Verify() returns (r: Outcome<ValidationException>)
      ensures r.Fail? <==> builder.warns != []
      ensures r.Fail? ==> r.error.warns.errors == builder.warns
    {
      if HasWarn() {
        return Fail(OfBuilder(builder));
      }
      return Pass;
    }

    /** `Check` followed by `Verify`. */
    method VerifyGlobal(valid: bool, message: string) returns (r: Outcome<ValidationException>)
      modifies builder
      ensures builder.warns == if valid then old(builder.warns) else old(builder.warns) + [OfGlobal(message, [])]
      ensures r.Fail? <==> builder.warns != []
      ensures r.Fail? ==> r.error.warns.errors == builder.warns
    {
      Check(valid, message);
      r := Verify();
    }

    /** `CheckField` followed by `Verify`. */
    method VerifyField(valid: bool, field: string, message: string) returns (r: Outcome<ValidationException>)
      modifies builder
      ensures builder.warns ==
        if valid then old(builder.warns) else old(builder.warns) + [Warnings.OfField(field, message, [])]
      ensures r.Fail? <==> builder.warns != []
      ensures r.Fail? ==> r.error.warns.errors == builder.warns
    {
      CheckField(valid, field, message);
      r := Verify();
    }
  }

  /**
   * One call inside a validation block: a condition, the field it reports against (none for a
   * global warning), the message key, and whether it is a `verify` (throwing at once) or a
   * `check` (only accumulating).
   */
  datatype Guard = Guard(valid: bool, field: Option<string>, message: string, verify: bool)

  function GuardWarn(g: Guard): (w: Warn)
    ensures w.message == g.message && w.messageArgs == []
    ensures g.field.None? ==> w.IsGlobal()
  {
    if g.field.None? then OfGlobal(g.message, []) else Warnings.OfField(g.field.value, g.message, [])
  }

  /** What the block's exception carries once the warnings are `acc`. */
  function Finish(acc: seq<Warn>): Outcome<ValidationException> {
    if acc == [] then Pass else Fail(ValidationException(Warns(acc)))
  }

  /** The outcome of running `guards` on a validator that already holds the warnings `acc`. */
  function RunGuards(guards: seq<Guard>, acc: seq<Warn>): Outcome<ValidationException>
    decreases |guards|
  {
    if guards == [] then Finish(acc)
    else
      var g := guards[0];
      var acc' := if g.valid then acc else acc + [GuardWarn(g)];
      if g.verify && acc' != [] then Fail(ValidationException(Warns(acc')))
      else RunGuards(guards[1..], acc')
  }

  /** `Validator.validate`: the outcome of a validation block. */
  function Validated(guards: seq<Guard>): Outcome<ValidationException> {
    RunGuards(guards, [])
  }

  /** Runs a validation block on a fresh validator, stopping at the first throwing `verify`. */
  method Validate(guards: seq<Guard>) returns (r: Outcome<ValidationException>)
    ensures r == Validated(guards)
  {
    var v := new Validator();
    var i := 0;
    while i < |guards|
      invariant 0 <= i <= |guards|
      invariant RunGuards(guards[i..], v.builder.warns) == Validated(guards)
    {
      var g := guards[i];
      assert guards[i..][1..] == guards[i + 1..];
      if g.verify {
        var o;
        if g.field.None? {
          o := v.VerifyGlobal(g.valid, g.message);
        } else {
          o := v.VerifyField(g.valid, g.field.value, g.message);
        }
        if o.Fail? {
          return o;
        }
      } else if g.field.None? {
        v.Check(g.valid, g.message);
      } else {
        v.CheckField(g.valid, g.field.value, g.message);
      }
      i := i + 1;
    }
    r := v.Verify();
  }

  /** A block completes normally exactly when every condition in it holds. */
  lemma {:induction false} RunGuardsFails(guards: seq<Guard>, acc: seq<Warn>)
    ensures RunGuards(guards, acc).Fail? <==>
      acc != [] || exists i :: 0 <= i < |guards| && !guards[i].valid
    decreases |guards|
  {
    if guards != [] {
      var g := guards[0];
      var acc' := if g.valid then acc else acc + [GuardWarn(g)];
      RunGuardsFails(guards[1..], acc');
      if !g.valid {
        assert !guards[0].valid;
      }
      forall i | 1 <= i < |guards|
        ensures guards[i] == guards[1..][i - 1]
      {
      }
    }
  }

  lemma ValidatedFailsIffSomeGuardFails(guards: seq<Guard>)
    ensures Validated(guards).Fail? <==> exists i :: 0 <= i < |guards| && !guards[i].valid
  {
    RunGuardsFails(guards, []);
  }

  predicate AllVerify(guards: seq<Guard>) {
    forall i :: 0 <= i < |guards| ==> guards[i].verify
  }

  /**
   * In a block of `verify` calls the first false condition decides the exception: it carries
   * that one warning and no later condition is looked at.
   */
  lemma {:induction false} FirstFailingVerifyDecides(guards: seq<Guard>, k: nat)
    requires AllVerify(guards)
    requires k < |guards| && !guards[k].valid
    requires forall j :: 0 <= j < k ==> guards[j].valid
    ensures Validated(guards) == Fail(ValidationException(Warns([GuardWarn(guards[k])])))
  {
    if k > 0 {
      assert RunGuards(guards, []) == RunGuards(guards[1..], []);
      assert guards[1..][k - 1] == guards[k];
      FirstFailingVerifyDecides(guards[1..], k - 1);
    } else {
      assert [] + [GuardWarn(guards[0])] == [GuardWarn(guards[0])];
    }
  }

  /** A block of one `verify` throws exactly that guard's warning when its condition is false. */
  lemma VerifyOneDecides(g: Guard)
    requires g.verify
    ensures Validated([g]) == if g.valid then Pass else Fail(Of(GuardWarn(g)))
  {
    if !g.valid {
      FirstFailingVerifyDecides([g], 0);
    } else {
      ValidatedFailsIffSomeGuardFails([g]);
    }
  }

  /** A block of two `verify` calls throws the first false condition's warning, and only that one. */
  lemma VerifyPairDecides(g1: Guard, g2: Guard)
    requires g1.verify && g2.verify
    ensures Validated([g1, g2]) ==
      if !g1.valid then Fail(Of(GuardWarn(g1)))
      else if !g2.valid then Fail(Of(GuardWarn(g2)))
      else Pass
  {
    if !g1.valid {
      FirstFailingVerifyDecides([g1, g2], 0);
    } else if !g2.valid {
      FirstFailingVerifyDecides([g1, g2], 1);
    } else {
      ValidatedFailsIffSomeGuardFails([g1, g2]);
    }
  }

  /** The warnings of the failed conditions, in block order. */
  function FailedWarns(guards: seq<Guard>): seq<Warn> {
    if guards == [] then []
    else (if guards[0].valid then [] else [GuardWarn(guards[0])]) + FailedWarns(guards[1..])
  }

  /** In a block of `check` calls every failure accumulates, and the block throws with all of them, in order. */
  lemma {:induction false} ChecksAccumulate(guards: seq<Guard>, acc: seq<Warn>)
    requires forall i :: 0 <= i < |guards| ==> !guards[i].verify
    ensures RunGuards(guards, acc) == Finish(acc + FailedWarns(guards))
    decreases |guards|
  {
    if guards == [] {
      assert acc + [] == acc;
    } else {
      var g := guards[0];
      var acc' := if g.valid then acc else acc + [GuardWarn(g)];
      ChecksAccumulate(guards[1..], acc');
      assert acc' + FailedWarns(guards[1..]) == acc + FailedWarns(guards);
    }
  }
}
