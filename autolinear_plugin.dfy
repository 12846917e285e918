/**
 * The auto-linear tone-map plugin as an object: the host path that rewrites the
 * film's tonemapped channel in place, and the host side of the OpenCL path with
 * its lazily built kernels and buffer.
 */
module AutoLinearPlugin {
  import opened Wrappers
  import opened UInt32
  import opened AutoLinear

  //----------------------------------------------------------------------------
  // The film, the device and the plugin
  //----------------------------------------------------------------------------

  /** Index of a buffer among a device's allocations. */
  type BufferHandle = nat

  datatype Allocation = Allocation(bytes: nat, name: string)

  datatype KernelArg = UIntArg(u: u32) | FloatArg(f: real) | BufferArg(buffer: BufferHandle)

  /** A device kernel and the arguments bound to it, in argument order. */
  datatype Kernel = Kernel(name: string, args: seq<KernelArg>)

  /** One `enqueueNDRangeKernel` call: the kernel as bound, the global and the local range. */
  datatype Launch = Launch(kernel: Kernel, globalSize: nat, localSize: nat)

  /** What the tone map observes of an OpenCL intersection device. */
  class Device {
    /** Buffers allocated so far; a buffer's handle is its index. */
    var allocations: seq<Allocation>
    /** Names of the programs compiled so far. */
    var programs: seq<string>
    /** The in-order command queue, as the sequence of launches enqueued. */
    var queue: seq<Launch>

    constructor ()
      ensures allocations == [] && programs == [] && queue == []
    {
      allocations, programs, queue := [], [], [];
    }

    /** `AllocBufferRW`: allocate a read-write buffer and return its handle. */
    method AllocBufferRW(bytes: nat, name: string) returns (handle: BufferHandle)
      modifies this
      ensures handle == |old(allocations)|
      ensures allocations == old(allocations) + [Allocation(bytes, name)]
      ensures programs == old(programs) && queue == old(queue)
    {
      handle := |allocations|;
      allocations := allocations + [Allocation(bytes, name)];
    }

    /** Compile a program of kernels for this device. */
    method CompileProgram(name: string)
      modifies this
      ensures programs == old(programs) + [name]
      ensures allocations == old(allocations) && queue == old(queue)
    {
      programs := programs + [name];
    }

    /** `enqueueNDRangeKernel` on the device's queue. */
    method Enqueue(kernel: Kernel, globalSize: nat, localSize: nat)
      modifies this
      ensures queue == old(queue) + [Launch(kernel, globalSize, localSize)]
      ensures allocations == old(allocations) && programs == old(programs)
    {
      queue := queue + [Launch(kernel, globalSize, localSize)];
    }
  }

  /** The parts of a film the tone map reads and writes. */
  class Film {
    const width: u32
    const height: u32
    /** channel_RGB_TONEMAPPED, `width * height` pixels. */
    const tonemapped: array<Rgb>
    /** channel_FRAMEBUFFER_MASK. */
    const mask: array<bool>
    const pipeline: Option<ImagePipeline>
    /** The OpenCL device, when the film runs its pipeline on one. */
    const device: Device?
    /** The device mirrors of the tonemapped channel and of the mask. */
    const oclTonemapped: BufferHandle
    const oclMask: BufferHandle

    constructor (width: u32, height: u32, tonemapped: array<Rgb>, mask: array<bool>,
                 pipeline: Option<ImagePipeline>, device: Device?, oclTonemapped: BufferHandle, oclMask: BufferHandle)
      requires tonemapped.Length == mask.Length == width * height
      ensures Valid()
      ensures this.width == width && this.height == height && this.tonemapped == tonemapped && this.mask == mask
      ensures this.pipeline == pipeline && this.device == device
      ensures this.oclTonemapped == oclTonemapped && this.oclMask == oclMask
    {
      this.width, this.height, this.tonemapped, this.mask := width, height, tonemapped, mask;
      this.pipeline, this.device, this.oclTonemapped, this.oclMask := pipeline, device, oclTonemapped, oclMask;
    }

    predicate Valid() {
      tonemapped.Length == width * height && mask.Length == width * height
    }

    /** `GetWidth() * GetHeight()` in `u_int`: wraps for films of 2^32 pixels or more. */
    function PixelCount(): (n: u32)
      requires Valid()
      ensures n <= tonemapped.Length && n <= mask.Length
      ensures width * height < Modulus ==> n == tonemapped.Length
    {
      Mul(width, height)
    }
  }

  /** The bound reduce kernel: film size, the two channels and the accumulation buffer. */
  function ReduceKernel(film: Film, accum: BufferHandle): Kernel {
    Kernel("SumRGBValuesReduce", [UIntArg(film.width), UIntArg(film.height),
      BufferArg(film.oclTonemapped), BufferArg(film.oclMask), BufferArg(accum)])
  }

  /** The bound accumulate kernel: the number of partial sums and the accumulation buffer. */
  function AccumulateKernel(film: Film, accum: BufferHandle): Kernel
    requires film.Valid()
  {
    Kernel("SumRGBValueAccumulate", [UIntArg(WorkSize(film.PixelCount()) / 64), BufferArg(accum)])
  }

  /** The bound apply kernel: film size, the two channels, the gamma at binding time and the buffer. */
  function ApplyKernel(film: Film, accum: BufferHandle): Kernel {
    Kernel("AutoLinearToneMap_Apply", [UIntArg(film.width), UIntArg(film.height),
      BufferArg(film.oclTonemapped), BufferArg(film.oclMask),
      FloatArg(GammaCorrectionValue(film.pipeline)), BufferArg(accum)])
  }

  /** The tone-map plugin with its lazily built OpenCL resources. */
  class AutoLinearToneMap {
    var oclIntersectionDevice: Device?
    var oclAccumBuffer: Option<BufferHandle>
    var sumRGBValuesReduceKernel: Option<Kernel>
    var sumRGBValueAccumulateKernel: Option<Kernel>
    var applyKernel: Option<Kernel>

    /** The device resources exist all together or not at all; `applyKernel` tells which. */
    ghost predicate Valid()
      reads this
    {
      if applyKernel.None? then
        oclIntersectionDevice == null && oclAccumBuffer.None? &&
        sumRGBValuesReduceKernel.None? && sumRGBValueAccumulateKernel.None?
      else
        oclIntersectionDevice != null && oclAccumBuffer.Some? &&
        sumRGBValuesReduceKernel.Some? && sumRGBValueAccumulateKernel.Some?
    }

    constructor ()
      ensures Valid() && applyKernel.None?
    {
      oclIntersectionDevice := null;
      oclAccumBuffer := None;
      sumRGBValuesReduceKernel, sumRGBValueAccumulateKernel, applyKernel := None, None, None;
    }

    /**
     * The host path: sum the luminance of the counted pixels, divide by the
     * pixel count and, when that mean is positive, scale every masked pixel
     * in place.
     */
    method Apply(film: Film, lum: Luminance, powf: Power)
      requires film.Valid()
      modifies film.tonemapped
      ensures film.tonemapped[..] ==
              ToneMapped(lum, powf, film.pipeline, old(film.tonemapped[..]), film.mask[..], film.PixelCount())
    {
      var pixels := film.tonemapped;
      var pixelCount := film.PixelCount();

      var y: real := 0.0;
      for i := 0 to pixelCount
        invariant y == LuminanceSum(lum, pixels[..], film.mask[..], i)
      {
        if film.mask[i] {
          var l := lum(pixels[i]);
          if l.Infinite? || l.value <= 0.0 {
            continue;
          }
          y := y + l.value;
        }
      }
      if pixelCount == 0 {
        // The float code divides 0 by 0 here; its second loop then runs zero times.
        return;
      }
      y := y / pixelCount as real;

      if y <= 0.0 {
        return;
      }

      var scale := LinearToneMapScale(powf, film.pipeline, y);

      for i := 0 to pixelCount
        invariant forall k :: 0 <= k < i ==>
          pixels[k] == if film.mask[k] then Scaled(scale, old(pixels[k])) else old(pixels[k])
        invariant forall k :: i <= k < pixels.Length ==> pixels[k] == old(pixels[k])
      {
        if film.mask[i] {
          pixels[i] := Scaled(scale, pixels[i]);
        }
      }
    }

    /**
     * The OpenCL path, host side: on the first call allocate the accumulation
     * buffer, compile the program, create the three kernels and bind their
     * arguments; on every call enqueue reduce, accumulate and apply, in that order.
     */
    method ApplyOCL(film: Film)
      requires Valid() && film.Valid() && film.device != null
      modifies this, film.device
      ensures Valid() && applyKernel.Some?
      ensures old(applyKernel).Some? ==>
        oclIntersectionDevice == old(oclIntersectionDevice) && oclAccumBuffer == old(oclAccumBuffer) &&
        sumRGBValuesReduceKernel == old(sumRGBValuesReduceKernel) &&
        sumRGBValueAccumulateKernel == old(sumRGBValueAccumulateKernel) && applyKernel == old(applyKernel) &&
        film.device.allocations == old(film.device.allocations) && film.device.programs == old(film.device.programs)
      ensures old(applyKernel).None? ==>
        var accum := |old(film.device.allocations)|;
        oclIntersectionDevice == film.device && oclAccumBuffer == Some(accum) &&
        film.device.allocations ==
          old(film.device.allocations) + [Allocation(AccumBufferBytes(film.PixelCount()), "Accumulation buffer")] &&
        film.device.programs == old(film.device.programs) + ["AutoLinearToneMap"] &&
        sumRGBValuesReduceKernel == Some(ReduceKernel(film, accum)) &&
        sumRGBValueAccumulateKernel == Some(AccumulateKernel(film, accum)) &&
        applyKernel == Some(ApplyKernel(film, accum))
      ensures film.device.queue == old(film.device.queue) + [
        Launch(sumRGBValuesReduceKernel.value, WorkSize(film.PixelCount()), 64),
        Launch(sumRGBValueAccumulateKernel.value, 64, 64),
        Launch(applyKernel.value, ApplyRange(film.PixelCount()), 256)]
    {
      var pixelCount := film.PixelCount();
      var workSize := WorkSize(pixelCount);

      if applyKernel.None? {
        // First call: the device, the accumulation buffer, the program and the bound kernels
        oclIntersectionDevice := film.device;
        var accum := oclIntersectionDevice.AllocBufferRW((workSize / 64) * 4 * 3, "Accumulation buffer");
        oclAccumBuffer := Some(accum);
        film.device.CompileProgram("AutoLinearToneMap");
        sumRGBValuesReduceKernel := Some(ReduceKernel(film, accum));
        sumRGBValueAccumulateKernel := Some(AccumulateKernel(film, accum));
        applyKernel := Some(ApplyKernel(film, accum));
      }

      film.device.Enqueue(sumRGBValuesReduceKernel.value, workSize, 64);
      film.device.Enqueue(sumRGBValueAccumulateKernel.value, 64, 64);
      film.device.Enqueue(applyKernel.value, ApplyRange(pixelCount), 256);
    }
  }

  /**
   * Two consecutive device applications on one film: the program is compiled
   * and the buffer allocated once, the gamma of the first call stays bound,
   * and six launches are queued in the order reduce, accumulate, apply twice.
   */
  method ApplyOCLTwice(film: Film) returns (tm: AutoLinearToneMap)
    requires film.Valid() && film.device != null
    modifies film.device
    ensures |film.device.programs| == |old(film.device.programs)| + 1
    ensures |film.device.allocations| == |old(film.device.allocations)| + 1
    ensures |film.device.queue| == |old(film.device.queue)| + 6
    ensures film.device.queue[|old(film.device.queue)|..] ==
            var accum := |old(film.device.allocations)|;
            var reduce := Launch(ReduceKernel(film, accum), WorkSize(film.PixelCount()), 64);
            var accumulate := Launch(AccumulateKernel(film, accum), 64, 64);
            var apply := Launch(ApplyKernel(film, accum), ApplyRange(film.PixelCount()), 256);
            [reduce, accumulate, apply, reduce, accumulate, apply]
  {
    tm := new AutoLinearToneMap();
    tm.ApplyOCL(film);
    tm.ApplyOCL(film);
  }
}
