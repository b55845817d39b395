/** `gen_id` and the temporary file paths named after the id it returns. */
module Jobs {
  import opened Strings

  /** `string.ascii_lowercase`, `string.ascii_uppercase` and `string.digits`. */
  const Lower: string := CharRange('a', 26)
  const Upper: string := CharRange('A', 26)
  const Digits: string := CharRange('0', 10)

  /** The `n` consecutive characters starting at `first`. */
  function CharRange(first: char, n: nat): (s: string)
    requires (first as int) + n <= 0x7F
    ensures |s| == n
    ensures forall i :: 0 <= i < n ==> s[i] as int == (first as int) + i
  {
    if n == 0 then "" else CharRange(first, n - 1) + [((first as int) + n - 1) as char]
  }

  /** `string.ascii_letters + string.digits`, the characters `gen_id` draws from. */
  const Pool: string := Lower + Upper + Digits

  /** The number of characters `gen_id` draws. */
  const IdLength: nat := 32

  /** An ASCII letter or digit. */
  predicate IsAlnum(c: char)
  {
    'a' <= c <= 'z' || 'A' <= c <= 'Z' || '0' <= c <= '9'
  }

  /** What `gen_id` promises: 32 ASCII letters or digits. */
  predicate IsJobId(id: string)
  {
    |id| == IdLength && forall i :: 0 <= i < |id| ==> IsAlnum(id[i])
  }

  /** Draws that `random.choices(pool, k=32)` may make: 32 positions in the pool. */
  predicate IsDraw(picks: seq<nat>)
  {
    |picks| == IdLength && forall i :: 0 <= i < |picks| ==> picks[i] < |Pool|
  }

  /** `gen_id()`, with the random draws supplied by the caller. */
  function GenId(picks: seq<nat>): (id: string)
    requires IsDraw(picks)
    ensures IsJobId(id)
  {
    seq(IdLength, i requires 0 <= i < IdLength => Pool[picks[i]])
  }

  /** The position of a letter or digit in the pool. */
  function PoolIndex(c: char): (k: nat)
    requires IsAlnum(c)
    ensures k < |Pool| && Pool[k] == c
  {
    assert |Lower| == 26 && |Upper| == 26 && |Digits| == 10;
    if 'a' <= c <= 'z' then
      var k := (c as int) - ('a' as int);
      assert Pool[k] == Lower[k];
      k
    else if 'A' <= c <= 'Z' then
      var k := 26 + (c as int) - ('A' as int);
      assert Pool[k] == Upper[k - 26];
      k
    else
      var k := 52 + (c as int) - ('0' as int);
      assert Pool[k] == Digits[k - 52];
      k
  }

  /** Every job id is a possible result of `gen_id`: the pool is exactly the
      ASCII letters and digits. */
  lemma EveryIdGenerated(id: string)
    requires IsJobId(id)
    ensures exists picks :: IsDraw(picks) && GenId(picks) == id
  {
    var picks := seq(IdLength, i requires 0 <= i < IdLength => PoolIndex(id[i]));
    assert GenId(picks) == id;
  }

  /** The temporary input file of a job. */
  function InputPath(id: string): string
  {
    "/tmp/sanjuuni_in" + id
  }

  /** The temporary output file of a job; it ends in `.blit` whatever the
      requested format. */
  function OutputPath(id: string): string
  {
    "/tmp/sanjuuni_out" + id + ".blit"
  }

  /** The paths of a job are single shell words. */
  lemma PathsAreWords(id: string)
    requires IsJobId(id)
    ensures IsWord(InputPath(id)) && IsWord(OutputPath(id))
  {
    var p := InputPath(id);
    var q := OutputPath(id);
    forall k | 0 <= k < |p|
      ensures p[k] != ' '
    {
      if k >= 16 {
        assert p[k] == id[k - 16];
      }
    }
    forall k | 0 <= k < |q|
      ensures q[k] != ' '
    {
      if 17 <= k < 17 + IdLength {
        assert q[k] == id[k - 17];
      }
    }
  }

  /** Different ids name different files, and no job's input file is any
      job's output file, so concurrent requests with distinct ids never
      share a path. */
  lemma PathsDistinct(a: string, b: string)
    requires IsJobId(a) && IsJobId(b)
    ensures InputPath(a) != OutputPath(b)
    ensures a != b ==> InputPath(a) != InputPath(b) && OutputPath(a) != OutputPath(b)
  {
    assert InputPath(a)[14] == 'i' && OutputPath(b)[14] == 'o';
    if a != b {
      var k :| 0 <= k < IdLength && a[k] != b[k];
      assert InputPath(a)[16 + k] == a[k] && InputPath(b)[16 + k] == b[k];
      assert OutputPath(a)[17 + k] == a[k] && OutputPath(b)[17 + k] == b[k];
    }
  }
}
