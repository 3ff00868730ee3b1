/**
 * Framebuffer handles and the double framebuffer (`createDoubleFBO`): a pair
 * of `read` and `write` slots, a `swap` that exchanges them, setters that
 * replace one slot, and `resizeDoubleFBO`.
 */
module Buffers {
  import opened Grid
  import opened Stencils

  /**
   * A framebuffer object as `createFBO` returns it: the GL name `id`, its size and
   * the texels its texture holds (the content a GPU texture has at that moment).
   */
  datatype Target<T> = Target(id: nat, width: nat, height: nat, texels: Field<T>) {
    ghost predicate Valid() {
      IsGrid(texels, width, height)
    }

    /** `texelSize`: one texel in texture coordinates. */
    function TexelSize(): Vec2
      requires width > 0 && height > 0
    {
      Vec2(1.0 / width as real, 1.0 / height as real)
    }
  }

  /** `createFBO`: a new framebuffer of the given size, cleared to zero. */
  function CreateFbo<T>(id: nat, w: nat, h: nat, zero: T): (t: Target<T>)
    ensures t.Valid() && t.id == id && t.width == w && t.height == h && IsUniform(t.texels, zero)
  {
    Target(id, w, h, Blank(w, h, zero))
  }

  /** `resizeFBO`: the old texture drawn into a new size with `u_value` 1. */
  function Resample<T>(g: Field<T>, w: nat, h: nat, sample: Sampler<T>): (r: Field<T>)
    ensures IsGrid(r, w, h)
    ensures forall j, i :: 0 <= j < h && 0 <= i < w ==> r[j][i] == sample(g, Centre(i, w), Centre(j, h))
  {
    seq(h, j requires 0 <= j < h => seq(w, i requires 0 <= i < w => sample(g, Centre(i, w), Centre(j, h))))
  }

  /** The two slots of a double framebuffer, as values. */
  datatype Slots<T> = Slots(read: Target<T>, write: Target<T>) {
    /** Two distinct framebuffers of the same size. */
    ghost predicate Valid() {
      read.Valid() && write.Valid() &&
      read.width == write.width && read.height == write.height &&
      read.id != write.id
    }

    function Swapped(): Slots<T> {
      Slots(write, read)
    }

    /**
     * One pass of the solver: render `texels` into the write slot, then swap.
     * The new read slot is the old write framebuffer holding the new texels;
     * the new write slot is the old read framebuffer, untouched.
     */
    function Pass(texels: Field<T>): (s: Slots<T>)
      requires Valid() && IsGrid(texels, read.width, read.height)
      ensures s.Valid()
      ensures s.read.id == write.id && s.write.id == read.id
      ensures s.read.width == read.width && s.read.height == read.height
      ensures s.read.texels == texels && s.write == read
    {
      Slots(write.(texels := texels), read)
    }
  }

  /** Swapping twice gives back the original pair of slots. */
  lemma SwapTwice<T>(s: Slots<T>)
    ensures s.Swapped().Swapped() == s
  {
  }

  class DoubleFbo<T> {
    var read: Target<T>
    var write: Target<T>
    /** How many times `swap` has run on this pair. */
    ghost var swaps: nat

    function Pair(): Slots<T>
      reads this
    {
      Slots(read, write)
    }

    ghost predicate Valid()
      reads this
    {
      Pair().Valid()
    }

    /** `createDoubleFBO`: two fresh framebuffers of the same size. */
    constructor (w: nat, h: nat, zero: T, readId: nat, writeId: nat)
      requires readId != writeId
      ensures Valid()
      ensures read == CreateFbo(readId, w, h, zero) && write == CreateFbo(writeId, w, h, zero)
      ensures swaps == 0
    {
      read := CreateFbo(readId, w, h, zero);
      write := CreateFbo(writeId, w, h, zero);
      swaps := 0;
    }

    /** `swap`: the read and write slots trade places. */
    method Swap()
      modifies this
      ensures read == old(write) && write == old(read)
      ensures swaps == old(swaps) + 1
    {
      read, write := write, read;
      swaps := swaps + 1;
    }

    /** `set read`: replaces the read slot only. */
    method SetRead(t: Target<T>)
      modifies this
      ensures read == t && write == old(write) && swaps == old(swaps)
    {
      read := t;
    }

    /** `set write`: replaces the write slot only. */
    method SetWrite(t: Target<T>)
      modifies this
      ensures write == t && read == old(read) && swaps == old(swaps)
    {
      write := t;
    }

    /** `blit(target.write.fbo)`: a shader renders `texels` into the write slot's framebuffer. */
    method Blit(texels: Field<T>)
      requires Valid() && IsGrid(texels, write.width, write.height)
      modifies this
      ensures Valid()
      ensures read == old(read) && write == old(write).(texels := texels) && swaps == old(swaps)
    {
      write := write.(texels := texels);
    }

    /**
     * `resizeDoubleFBO`: nothing changes when the read slot already has the
     * requested size; otherwise the read slot becomes a new framebuffer holding
     * the old read texture resampled, and the write slot a new cleared one.
     */
    method Resize(w: nat, h: nat, sample: Sampler<T>, zero: T, readId: nat, writeId: nat)
      requires Valid() && readId != writeId
      modifies this
      ensures Valid() && swaps == old(swaps)
      ensures old(read.width) == w && old(read.height) == h ==>
                read == old(read) && write == old(write)
      ensures !(old(read.width) == w && old(read.height) == h) ==>
                read == Target(readId, w, h, Resample(old(read.texels), w, h, sample)) &&
                write == CreateFbo(writeId, w, h, zero)
      ensures read.width == w && read.height == h && write.width == w && write.height == h
    {
      if read.width == w && read.height == h {
        return;
      }
      SetRead(Target(readId, w, h, Resample(read.texels, w, h, sample)));
      SetWrite(CreateFbo(writeId, w, h, zero));
    }
  }

  /** Two swaps in a row restore both slots. */
  method SwapTwiceRestores<T>(d: DoubleFbo<T>)
    modifies d
    ensures d.read == old(d.read) && d.write == old(d.write) && d.swaps == old(d.swaps) + 2
  {
    d.Swap();
    d.Swap();
  }
}
