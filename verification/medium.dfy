/** The medium bookkeeping of `traceRefraction`: a LIFO of the objects a refracted
    ray is inside (its top at the end of the sequence), copied into every child
    ray, from which the indices on both sides of the hit surface are read. */
module MediumStack {
  import opened Vectors
  import opened SceneTypes

  /** The refractive index on the incoming side, on the outgoing side, and the
      stack the refracted child carries. */
  datatype Interface = Interface(ni: Index, nt: Index, stack: seq<ObjId>)

  /** One refraction's stack step for a hit on object `hit`. An empty stack or a
      top other than `hit` means entering `hit` (push); a top equal to `hit` means
      leaving it (pop). When leaving with more than one entry, n_t is read from the
      top before the pop, which is `hit` itself. */
  function MediumStep(stack: seq<ObjId>, hit: ObjId, material: ObjId -> Material): (f: Interface)
    ensures |f.stack| == |stack| + 1 || |f.stack| + 1 == |stack|
    ensures (stack == [] || stack[|stack| - 1] != hit) ==> f.stack == stack + [hit] && f.nt == material(hit).index
    ensures stack != [] && stack[|stack| - 1] == hit ==> f.stack + [hit] == stack && f.ni == material(hit).index
    ensures stack == [] ==> f.ni == 1.0
    ensures stack != [] && stack[|stack| - 1] != hit ==> f.ni == material(stack[|stack| - 1]).index
    ensures stack != [] && stack[|stack| - 1] == hit ==> f.nt == (if |stack| == 1 then 1.0 else material(hit).index)
  {
    if stack == [] then
      Interface(1.0, material(hit).index, [hit])
    else if hit != stack[|stack| - 1] then
      Interface(material(stack[|stack| - 1]).index, material(hit).index, stack + [hit])
    else
      Interface(material(hit).index,
                if |stack| == 1 then 1.0 else material(stack[|stack| - 1]).index,
                stack[..|stack| - 1])
  }

  /** 1 - n_r^2 (1 - c^2): negative exactly when the refraction is a total internal reflection. */
  function Discriminant(nr: real, c: real): real
  {
    1.0 - nr * nr * (1.0 - c * c)
  }

  /** A primary ray's first refraction enters from vacuum (index 1). */
  lemma EnterFromVacuum(hit: ObjId, material: ObjId -> Material)
    ensures MediumStep([], hit, material) == Interface(1.0, material(hit).index, [hit])
  {
  }

  /** Entering an object and then leaving it through a hit on the same object
      restores the stack, and the exit's incoming index is the entry's outgoing one.
      The full mirror (the exit's n_t equal to the entry's n_i) holds only from an
      empty stack: leaving a nested object reads n_t from the object itself. */
  lemma EnterThenLeave(stack: seq<ObjId>, hit: ObjId, material: ObjId -> Material)
    requires stack == [] || stack[|stack| - 1] != hit
    ensures var f := MediumStep(stack, hit, material);
            var g := MediumStep(f.stack, hit, material);
            g.stack == stack && g.ni == f.nt
            && (stack == [] ==> f.ni == 1.0 && g.nt == 1.0)
            && (stack != [] ==> f.ni == material(stack[|stack| - 1]).index && g.nt == material(hit).index)
  {
    var f := MediumStep(stack, hit, material);
    assert f.stack[..|f.stack| - 1] == stack;
  }

  /** Leaving a nested object gives n_i = n_t, a Snell ratio of 1: the exit keeps
      the incoming direction instead of bending into the enclosing medium. */
  lemma NestedExitRatioIsOne(stack: seq<ObjId>, hit: ObjId, material: ObjId -> Material)
    requires |stack| > 1 && stack[|stack| - 1] == hit
    ensures var f := MediumStep(stack, hit, material);
            f.ni == f.nt && f.ni / f.nt == 1.0
  {
  }

  /** A hit on an object deeper in the stack, not on its top, counts as an entry:
      the object is pushed a second time. */
  lemma DeeperHitIsEntry(stack: seq<ObjId>, k: nat, material: ObjId -> Material)
    requires k + 1 < |stack| && stack[k] != stack[|stack| - 1]
    ensures var f := MediumStep(stack, stack[k], material);
            f.stack == stack + [stack[k]] && multiset(f.stack)[stack[k]] == multiset(stack)[stack[k]] + 1
  {
  }

  /** A Snell ratio of 1 never gives a total internal reflection. */
  lemma RatioOneHasNoTotalInternalReflection(c: real)
    ensures Discriminant(1.0, c) == c * c >= 0.0
  {
  }

  /** Going into an optically denser medium (n_r <= 1) at a cosine in [-1, 1] never
      gives a total internal reflection. */
  lemma DenserMediumHasNoTotalInternalReflection(nr: real, c: real)
    requires 0.0 < nr <= 1.0 && -1.0 <= c <= 1.0
    ensures Discriminant(nr, c) >= 0.0
  {
    var s := 1.0 - c * c;
    assert 0.0 <= c * c <= 1.0 by {
      if c >= 0.0 {
        calc {
          c * c;
        <= { MulMono(c, c, 1.0); }
          c * 1.0;
        <= 1.0;
        }
      } else {
        calc {
          c * c;
        == (-c) * (-c);
        <= { MulMono(-c, -c, 1.0); }
          (-c) * 1.0;
        <= 1.0;
        }
      }
    }
    var q := nr * nr;
    assert 0.0 <= q <= 1.0 by {
      calc {
        0.0;
      == nr * 0.0;
      <= { MulMono(nr, 0.0, nr); }
        nr * nr;
      <= { MulMono(nr, nr, 1.0); }
        nr * 1.0;
      <= 1.0;
      }
    }
    calc {
      q * s;
    <= { MulMono(q, s, 1.0); }
      q * 1.0;
    <= 1.0;
    }
  }
}
