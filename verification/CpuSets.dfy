/**
 src/cpuset.rs, bit layer: 1024 CPUs in an array of 16 words, against the mathematical set
 of CPU numbers. Everything above this layer stores that set.
 */
module CpuSets {
  import opened Words

  const CPU_SETSIZE: nat := 1024
  const CPU_WORDS: nat := 16

  ghost predicate WellFormed(words: seq<nat>) {
    |words| == CPU_WORDS && forall i :: 0 <= i < CPU_WORDS ==> IsWord(words[i])
  }

  predicate WordsHave(words: seq<nat>, cpu: nat)
    requires |words| == CPU_WORDS && cpu < CPU_SETSIZE
  {
    Bit(words[cpu / CPU_WORD_BITS], cpu % CPU_WORD_BITS)
  }

  /** The CPUs whose bit is set. */
  function SetOf(words: seq<nat>): set<nat>
    requires |words| == CPU_WORDS
  {
    set cpu: nat | cpu < CPU_SETSIZE && WordsHave(words, cpu)
  }

  predicate InRange(s: set<nat>) {
    forall cpu | cpu in s :: cpu < CPU_SETSIZE
  }

  lemma CpuSplit(idx: nat, bit: nat)
    requires idx < CPU_WORDS && bit < CPU_WORD_BITS
    ensures var cpu := CPU_WORD_BITS * idx + bit;
            cpu < CPU_SETSIZE && cpu / CPU_WORD_BITS == idx && cpu % CPU_WORD_BITS == bit
  {
  }

  /** The representation is canonical: equal sets have equal words, so `==` on words is set equality. */
  lemma SetOfInjective(a: seq<nat>, b: seq<nat>)
    requires WellFormed(a) && WellFormed(b)
    requires SetOf(a) == SetOf(b)
    ensures a == b
  {
    forall idx: nat | idx < CPU_WORDS
      ensures a[idx] == b[idx]
    {
      forall bit: nat | bit < CPU_WORD_BITS
        ensures Bit(a[idx], bit) == Bit(b[idx], bit)
      {
        CpuSplit(idx, bit);
        var cpu := CPU_WORD_BITS * idx + bit;
        assert cpu in SetOf(a) <==> cpu in SetOf(b);
      }
      SameBits(a[idx], b[idx], CPU_WORD_BITS);
    }
  }

  /** The sum of `count_ones` over the words before `idx`. */
  function CountBelow(words: seq<nat>, idx: nat): nat
    requires idx <= |words|
  {
    if idx == 0 then 0 else CountBelow(words, idx - 1) + Ones(words[idx - 1])
  }

  ghost function Below(s: set<nat>, high: nat): set<nat> {
    set cpu | cpu in s && cpu < high
  }

  lemma BelowStep(s: set<nat>, cpu: nat)
    ensures |Below(s, cpu + 1)| == |Below(s, cpu)| + (if cpu in s then 1 else 0)
  {
    if cpu in s {
      assert Below(s, cpu + 1) == Below(s, cpu) + {cpu};
    } else {
      assert Below(s, cpu + 1) == Below(s, cpu);
    }
  }

  lemma {:induction false} OnesAreMembers(words: seq<nat>, idx: nat, bit: nat)
    requires WellFormed(words) && idx < CPU_WORDS && bit <= CPU_WORD_BITS
    ensures CountBelow(words, idx) + OnesBelow(words[idx], bit)
         == |Below(SetOf(words), CPU_WORD_BITS * idx + bit)|
    decreases idx, bit
  {
    var s := SetOf(words);
    if bit > 0 {
      CpuSplit(idx, bit - 1);
      OnesAreMembers(words, idx, bit - 1);
      BelowStep(s, CPU_WORD_BITS * idx + bit - 1);
    } else if idx > 0 {
      OnesAreMembers(words, idx - 1, CPU_WORD_BITS);
      OnesCounted(words[idx - 1], CPU_WORD_BITS);
    } else {
      assert Below(s, 0) == {};
    }
  }

  /** Population count is cardinality. */
  lemma CountIsCardinality(words: seq<nat>)
    requires WellFormed(words)
    ensures CountBelow(words, CPU_WORDS) == |SetOf(words)|
  {
    OnesAreMembers(words, CPU_WORDS - 1, CPU_WORD_BITS);
    OnesCounted(words[CPU_WORDS - 1], CPU_WORD_BITS);
    assert Below(SetOf(words), CPU_SETSIZE) == SetOf(words);
  }

  lemma ZeroWordsEmpty(words: seq<nat>)
    requires WellFormed(words)
    ensures (forall i :: 0 <= i < CPU_WORDS ==> words[i] == 0) <==> SetOf(words) == {}
  {
    var zeros := seq(CPU_WORDS, _ => 0);
    forall cpu: nat | cpu < CPU_SETSIZE ensures !WordsHave(zeros, cpu) {
      ZeroHasNoBits(cpu % CPU_WORD_BITS);
    }
    assert SetOf(zeros) == {};
    if SetOf(words) == {} {
      SetOfInjective(words, zeros);
    }
    if words == zeros {
      assert forall i :: 0 <= i < CPU_WORDS ==> words[i] == 0;
    }
    assert (forall i :: 0 <= i < CPU_WORDS ==> words[i] == 0) ==> words == zeros;
  }

  class CpuSet {
    const bits: array<nat>

    ghost predicate Valid()
      reads bits
    {
      WellFormed(bits[..])
    }

    /** The set of CPUs this mask stands for. */
    function View(): (s: set<nat>)
      requires bits.Length == CPU_WORDS
      reads bits
      ensures InRange(s)
    {
      SetOf(bits[..])
    }

    constructor ()
      ensures Valid() && fresh(bits) && View() == {}
    {
      bits := new nat[CPU_WORDS](_ => 0);
      new;
      ZeroWordsEmpty(bits[..]);
    }

    method Set(cpu: nat)
      requires Valid()
      modifies bits
      ensures Valid()
      ensures View() == if cpu < CPU_SETSIZE then old(View()) + {cpu} else old(View())
    {
      if cpu < CPU_SETSIZE {
        var idx, bit := cpu / CPU_WORD_BITS, cpu % CPU_WORD_BITS;
        ghost var was := bits[..];
        bits[idx] := Or(bits[idx], Pow2(bit));
        Pow2Bound(bit, CPU_WORD_BITS);
        OrBound(was[idx], Pow2(bit), CPU_WORD_BITS);
        forall c: nat | c < CPU_SETSIZE
          ensures WordsHave(bits[..], c) <==> c == cpu || WordsHave(was, c)
        {
          if c / CPU_WORD_BITS == idx {
            OrBits(was[idx], Pow2(bit), c % CPU_WORD_BITS);
            Pow2Bits(bit, c % CPU_WORD_BITS);
          }
        }
      }
    }

    method IsSet(cpu: nat) returns (b: bool)
      requires Valid()
      ensures b <==> cpu in View()
    {
      b := cpu < CPU_SETSIZE && Tests(bits[cpu / CPU_WORD_BITS], cpu % CPU_WORD_BITS);
      if cpu < CPU_SETSIZE {
        AndMask(bits[cpu / CPU_WORD_BITS], cpu % CPU_WORD_BITS);
      }
    }

    method Union(other: CpuSet)
      requires Valid() && other.Valid()
      modifies bits
      ensures Valid() && View() == old(View()) + old(other.View())
    {
      ghost var mine, theirs := bits[..], other.bits[..];
      var i := 0;
      while i < CPU_WORDS
        invariant 0 <= i <= CPU_WORDS
        invariant forall k :: 0 <= k < i ==> bits[k] == Or(mine[k], theirs[k])
        invariant forall k :: i <= k < CPU_WORDS ==> bits[k] == mine[k] && other.bits[k] == theirs[k]
      {
        bits[i] := Or(bits[i], other.bits[i]);
        i := i + 1;
      }
      forall k | 0 <= k < CPU_WORDS ensures IsWord(bits[k]) {
        OrBound(mine[k], theirs[k], CPU_WORD_BITS);
      }
      forall c: nat | c < CPU_SETSIZE
        ensures WordsHave(bits[..], c) <==> WordsHave(mine, c) || WordsHave(theirs, c)
      {
        OrBits(mine[c / CPU_WORD_BITS], theirs[c / CPU_WORD_BITS], c % CPU_WORD_BITS);
      }
    }

    method Count() returns (n: nat)
      requires Valid()
      ensures n == |View()|
    {
      n := 0;
      for i := 0 to CPU_WORDS
        invariant n == CountBelow(bits[..], i)
      {
        n := n + Ones(bits[i]);
      }
      CountIsCardinality(bits[..]);
    }

    method IsZero() returns (b: bool)
      requires Valid()
      ensures b <==> View() == {}
    {
      b := forall i :: 0 <= i < CPU_WORDS ==> bits[i] == 0;
      ZeroWordsEmpty(bits[..]);
    }

    /** Derived equality on the words. */
    method Equals(other: CpuSet) returns (b: bool)
      requires Valid() && other.Valid()
      ensures b <==> View() == other.View()
    {
      b := bits[..] == other.bits[..];
      if View() == other.View() {
        SetOfInjective(bits[..], other.bits[..]);
      }
    }
  }
}
