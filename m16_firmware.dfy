/** Firmware updates of the M16 sensor (both LdSensorM16::UpdateFirmware
    overloads): which image of an update file is sent, and how a main or
    factory image is cut into blocks and its progress reported. */
module M16Firmware {
  import opened Wrappers
  import opened Exceptions
  import opened Properties
  import opened M16Requests

  /** The identifiers of the images an update file may hold (stand-in values; only their distinctness matters). */
  const ID_LTB_GALAXY_BINARY: nat := 1
  const ID_LTB_FPGA_ALGO: nat := 2
  const ID_LTB_FPGA_DATA: nat := 3

  /** The images of an update file, in file order. */
  type Firmwares = seq<(nat, seq<Byte>)>

  /** Whether the file holds an image of the given identifier. */
  predicate HasImage(fw: Firmwares, id: nat) {
    exists k :: 0 <= k < |fw| && fw[k].0 == id
  }

  /** `std::find_if` on the identifier: the first image with that identifier. */
  function FindImage(fw: Firmwares, id: nat): (r: Option<seq<Byte>>)
    ensures r.Some? <==> HasImage(fw, id)
    ensures r.Some? ==> exists k :: 0 <= k < |fw| && fw[k] == (id, r.value) && forall j :: 0 <= j < k ==> fw[j].0 != id
  {
    if fw == [] then None
    else if fw[0].0 == id then
      assert fw[0] == (id, fw[0].1);
      Some(fw[0].1)
    else
      var r := FindImage(fw[1..], id);
      if r.Some? then
        var k :| 0 <= k < |fw[1..]| && fw[1..][k] == (id, r.value) && forall j :: 0 <= j < k ==> fw[1..][j].0 != id;
        assert fw[k + 1] == (id, r.value) && forall j :: 0 <= j < k + 1 ==> fw[j].0 != id;
        r
      else
        assert forall k :: 0 < k < |fw| ==> fw[k] == fw[1..][k - 1];
        r
  }

  /** eFirmwareType as the M16 sees it; any other type is `OtherFirmware`. */
  datatype FirmwareType = DspFirmware | FpgaFirmware | FactoryFirmware | OtherFirmware

  /** LdFirmwareData: the image, plus the algorithm data an FPGA image needs. */
  datatype FirmwareData = FirmwareData(firmware: seq<Byte>, algo: seq<Byte>)

  /** The overload taking a file: the file must be for this device (its device
      type equal to the `ID_DEVICE_TYPE` value); a DSP image wins over an FPGA
      pair, and a half FPGA pair or no image at all is an error. */
  function SelectImage(deviceType: Property, fileDeviceType: int, fw: Firmwares): (r: Result<(FirmwareType, FirmwareData), Error>) {
    var own :- IntAt(deviceType, 0);
    if fileDeviceType != own then Failure(LogicError("Provided file is not for this device"))
    else
      var dsp := FindImage(fw, ID_LTB_GALAXY_BINARY);
      var algo := FindImage(fw, ID_LTB_FPGA_ALGO);
      var data := FindImage(fw, ID_LTB_FPGA_DATA);
      if dsp.Some? then Success((DspFirmware, FirmwareData(dsp.value, [])))
      else if algo.Some? && data.Some? then Success((FpgaFirmware, FirmwareData(data.value, algo.value)))
      else if algo.None? && data.Some? then Failure(LogicError("Missing FPGA Algo data"))
      else if algo.Some? && data.None? then Failure(LogicError("Missing FPGA data"))
      else Failure(LogicError("No data to send to the sensor"))
  }

  /** An update goes ahead exactly when the file is for this device and holds
      a DSP image or both FPGA images; a DSP image is always the one chosen. */
  lemma SelectionRules(deviceType: Property, fileDeviceType: int, fw: Firmwares)
    ensures SelectImage(deviceType, fileDeviceType, fw).Success? <==>
              IntAt(deviceType, 0) == Success(fileDeviceType)
              && (HasImage(fw, ID_LTB_GALAXY_BINARY) || (HasImage(fw, ID_LTB_FPGA_ALGO) && HasImage(fw, ID_LTB_FPGA_DATA)))
    ensures SelectImage(deviceType, fileDeviceType, fw).Success? ==>
              (SelectImage(deviceType, fileDeviceType, fw).value.0 == DspFirmware <==> HasImage(fw, ID_LTB_GALAXY_BINARY))
    ensures IntAt(deviceType, 0).Success? && IntAt(deviceType, 0).value != fileDeviceType ==>
              SelectImage(deviceType, fileDeviceType, fw) == Failure(LogicError("Provided file is not for this device"))
  {
  }

  /** One block of a main or factory update: where it starts in the image, how
      long it is, and the percentage reported when it is sent. */
  datatype Block = Block(offset: nat, length: nat, percent: nat)

  function Min(a: nat, b: nat): nat {
    if a < b then a else b
  }

  /** `static_cast<uint32_t>(size())`: the file length the device is told. */
  function FileSize(image: seq<Byte>): (n: nat)
    ensures n <= |image| && n < UINT32_LIMIT
  {
    |image| % UINT32_LIMIT
  }

  /** The block sent at `offset`: what is left of the image, at most one
      block length, with the share of the image sent before it. */
  function BlockAt(fileSize: nat, blockSize: nat, offset: nat): Block
    requires offset < fileSize
  {
    Block(offset, Min(fileSize - offset, blockSize), 100 * offset / fileSize)
  }

  /** The blocks sent from `offset` on, the cancel flag being read before the
      k-th block and `answers(k)` being how the read of its answer went: each
      block is `blockSize` long but the last, the percentage is the share of
      the image sent before it, and a block whose answer cannot be read is the
      last one sent. */
  function Transfer(fileSize: nat, blockSize: nat, cancel: nat -> bool, answers: nat -> Outcome<Error>, offset: nat, k: nat): (r: seq<Block>)
    requires blockSize > 0
    decreases if offset < fileSize then fileSize - offset else 0
  {
    if cancel(k) || offset >= fileSize then []
    else [BlockAt(fileSize, blockSize, offset)]
         + if answers(k).Fail? then [] else Transfer(fileSize, blockSize, cancel, answers, offset + blockSize, k + 1)
  }

  /** One step of the transfer: the block at `offset`, then the rest unless
      its answer failed. */
  lemma TransferStep(fileSize: nat, blockSize: nat, cancel: nat -> bool, answers: nat -> Outcome<Error>, offset: nat, k: nat, block: Block)
    requires blockSize > 0 && !cancel(k) && offset < fileSize
    requires block == BlockAt(fileSize, blockSize, offset)
    ensures answers(k).Fail? ==> Transfer(fileSize, blockSize, cancel, answers, offset, k) == [block]
    ensures answers(k).Pass? ==>
              Transfer(fileSize, blockSize, cancel, answers, offset, k)
              == [block] + Transfer(fileSize, blockSize, cancel, answers, offset + blockSize, k + 1)
  {
    assert [block] + [] == [block];
  }

  /** Moving one block from the blocks still to send to those sent. */
  lemma AppendBlock(sent: seq<Block>, block: Block, rest: seq<Block>)
    ensures (sent + [block]) + rest == sent + ([block] + rest)
    ensures rest == [] ==> sent + [block] == sent + ([block] + rest)
  {
  }

  /** How a transfer that sent `sent` blocks ends: the error of the last
      block's answer when it could not be read, success otherwise. */
  function TransferOutcome(answers: nat -> Outcome<Error>, sent: seq<Block>): Outcome<Error> {
    if |sent| > 0 && answers(|sent| - 1).Fail? then answers(|sent| - 1) else Pass
  }

  /** Every block but the last sent got its answer: a failed answer ends the
      transfer on the block it answers. */
  lemma {:induction false} TransferStopsAtFailure(fileSize: nat, blockSize: nat, cancel: nat -> bool, answers: nat -> Outcome<Error>, offset: nat, k: nat)
    requires blockSize > 0
    ensures forall j :: k <= j < k + |Transfer(fileSize, blockSize, cancel, answers, offset, k)| - 1 ==> answers(j).Pass?
    decreases if offset < fileSize then fileSize - offset else 0
  {
    var blocks := Transfer(fileSize, blockSize, cancel, answers, offset, k);
    if !cancel(k) && offset < fileSize && answers(k).Pass? {
      var rest := Transfer(fileSize, blockSize, cancel, answers, offset + blockSize, k + 1);
      TransferStopsAtFailure(fileSize, blockSize, cancel, answers, offset + blockSize, k + 1);
      assert |blocks| == 1 + |rest|;
    }
  }

  /** Blocks that follow each other from `start` without gap or overlap. */
  predicate Contiguous(blocks: seq<Block>, start: nat) {
    (|blocks| > 0 ==> blocks[0].offset == start)
    && forall j :: 0 <= j < |blocks| - 1 ==> blocks[j + 1].offset == blocks[j].offset + blocks[j].length
  }

  function TotalLength(blocks: seq<Block>): nat {
    if blocks == [] then 0 else blocks[0].length + TotalLength(blocks[1..])
  }

  /** Without a cancel or a failed answer, the blocks cover the rest of the image exactly once. */
  lemma {:induction false} TransferCoversImage(fileSize: nat, blockSize: nat, cancel: nat -> bool, answers: nat -> Outcome<Error>, offset: nat, k: nat)
    requires blockSize > 0 && offset <= fileSize
    requires forall n :: !cancel(n) && answers(n).Pass?
    ensures Contiguous(Transfer(fileSize, blockSize, cancel, answers, offset, k), offset)
    ensures TotalLength(Transfer(fileSize, blockSize, cancel, answers, offset, k)) == fileSize - offset
    decreases fileSize - offset
  {
    var blocks := Transfer(fileSize, blockSize, cancel, answers, offset, k);
    if offset < fileSize {
      var next := offset + blockSize;
      if next <= fileSize {
        TransferCoversImage(fileSize, blockSize, cancel, answers, next, k + 1);
        assert blocks[1..] == Transfer(fileSize, blockSize, cancel, answers, next, k + 1);
      } else {
        assert Transfer(fileSize, blockSize, cancel, answers, next, k + 1) == [];
      }
    }
  }

  /** Every reported percentage is below 100 and they never go down. */
  lemma {:induction false} TransferProgress(fileSize: nat, blockSize: nat, cancel: nat -> bool, answers: nat -> Outcome<Error>, offset: nat, k: nat)
    requires blockSize > 0
    ensures forall j :: 0 <= j < |Transfer(fileSize, blockSize, cancel, answers, offset, k)| ==>
              Transfer(fileSize, blockSize, cancel, answers, offset, k)[j].percent < 100
              && offset <= Transfer(fileSize, blockSize, cancel, answers, offset, k)[j].offset < fileSize
    ensures forall j :: 0 <= j < |Transfer(fileSize, blockSize, cancel, answers, offset, k)| - 1 ==>
              Transfer(fileSize, blockSize, cancel, answers, offset, k)[j].percent <= Transfer(fileSize, blockSize, cancel, answers, offset, k)[j + 1].percent
    decreases if offset < fileSize then fileSize - offset else 0
  {
    var blocks := Transfer(fileSize, blockSize, cancel, answers, offset, k);
    if !cancel(k) && offset < fileSize {
      PercentBelow(offset, fileSize);
      if answers(k).Pass? {
        var rest := Transfer(fileSize, blockSize, cancel, answers, offset + blockSize, k + 1);
        TransferProgress(fileSize, blockSize, cancel, answers, offset + blockSize, k + 1);
        assert blocks == [blocks[0]] + rest;
        if |rest| > 0 {
          PercentMonotone(offset, rest[0].offset, fileSize);
        }
      } else {
        assert |blocks| == 1;
      }
    }
  }

  lemma PercentBelow(offset: nat, fileSize: nat)
    requires offset < fileSize
    ensures 100 * offset / fileSize < 100
  {
  }

  lemma PercentMonotone(a: nat, b: nat, fileSize: nat)
    requires a <= b && fileSize > 0
    ensures 100 * a / fileSize <= 100 * b / fileSize
  {
    DivMonotone(100 * a, 100 * b, fileSize);
  }

  lemma DivMonotone(x: nat, y: nat, f: nat)
    requires x <= y && f > 0
    ensures x / f <= y / f
  {
    var qx, qy := x / f, y / f;
    assert x == qx * f + x % f && y == qy * f + y % f;
    if qx > qy {
      MulMonotone(qy + 1, qx, f);
    }
  }

  lemma MulMonotone(a: nat, b: nat, f: nat)
    requires a <= b
    ensures a * f <= b * f
  {
  }

  /** A cancel seen before the k0-th block stops the transfer before it. */
  lemma {:induction false} TransferCancelled(fileSize: nat, blockSize: nat, cancel: nat -> bool, answers: nat -> Outcome<Error>, offset: nat, k: nat, k0: nat)
    requires blockSize > 0 && k <= k0 && cancel(k0)
    ensures |Transfer(fileSize, blockSize, cancel, answers, offset, k)| <= k0 - k
    decreases if offset < fileSize then fileSize - offset else 0
  {
    if !cancel(k) && offset < fileSize {
      TransferCancelled(fileSize, blockSize, cancel, answers, offset + blockSize, k + 1, k0);
    }
  }

  /** The block loop, with the offset kept wide enough never to wrap and a
      block length of 0 refused before the loop (see Finding 1 in README). */
  method SendBlocks(fileSize: nat, blockSize: nat, cancel: nat -> bool, answers: nat -> Outcome<Error>) returns (r: Outcome<Error>, sent: seq<Block>)
    ensures blockSize == 0 ==> sent == [] && (r.Fail? <==> fileSize > 0)
    ensures blockSize == 0 && r.Fail? ==> r.error == ComError("The device gave no block length.", false)
    ensures blockSize > 0 ==> sent == Transfer(fileSize, blockSize, cancel, answers, 0, 0) && r == TransferOutcome(answers, sent)
    ensures (forall n :: answers(n).Pass?) ==> (r.Fail? <==> blockSize == 0 && fileSize > 0)
  {
    sent := [];
    if blockSize == 0 {
      if fileSize > 0 {
        return Fail(ComError("The device gave no block length.", false)), sent;
      }
      return Pass, sent;
    }
    ghost var full := Transfer(fileSize, blockSize, cancel, answers, 0, 0);
    var count: nat := 0;
    var k: nat := 0;
    while !cancel(k) && count < fileSize
      invariant sent + Transfer(fileSize, blockSize, cancel, answers, count, k) == full
      invariant |sent| == k && (k > 0 ==> answers(k - 1).Pass?)
      decreases if count < fileSize then fileSize - count else 0
    {
      var block := BlockAt(fileSize, blockSize, count);
      TransferStep(fileSize, blockSize, cancel, answers, count, k, block);
      ghost var rest := Transfer(fileSize, blockSize, cancel, answers, count + blockSize, k + 1);
      AppendBlock(sent, block, if answers(k).Fail? then [] else rest);
      sent := sent + [block];
      if answers(k).Fail? {
        return answers(k), sent;
      }
      count := count + blockSize;
      k := k + 1;
    }
    assert sent + [] == sent;
    r := Pass;
  }

  /** `lCount += lBlockSize` as written, in 32 unsigned bits: the offset
      before the n-th block. */
  function OffsetAsWritten(n: nat, blockSize: nat): (c: nat)
    ensures c < UINT32_LIMIT
  {
    if n == 0 then 0 else (OffsetAsWritten(n - 1, blockSize) + blockSize) % UINT32_LIMIT
  }

  /** With a block length of 0 the offset never moves, so the loop condition
      `lCount < lFileSize` holds for ever on a non-empty image. */
  lemma {:induction false} ZeroBlockNeverEnds(n: nat, fileSize: nat)
    requires fileSize > 0
    ensures OffsetAsWritten(n, 0) == 0 < fileSize
  {
    if n > 0 {
      ZeroBlockNeverEnds(n - 1, fileSize);
    }
  }

  /** A near-4 GiB image with 2 GiB blocks: the offset wraps back to 0 after
      two blocks, below the file size, and the transfer starts over. */
  lemma OffsetWraps()
    ensures OffsetAsWritten(1, 0x8000_0000) == 0x8000_0000 < 0xFFFF_FFFF
    ensures OffsetAsWritten(2, 0x8000_0000) == 0 == OffsetAsWritten(0, 0x8000_0000)
  {
    assert OffsetAsWritten(1, 0x8000_0000) == 0x8000_0000;
  }

  /** `100 * lCount / lFileSize` as written: the product is taken in 32 unsigned bits. */
  function PercentAsWritten(count: nat, fileSize: nat): nat
    requires fileSize > 0
  {
    (100 * count % UINT32_LIMIT) / fileSize
  }

  /** Beyond about 43 MB the product wraps: 45 MB into a 50 MB image reports 4 % instead of 90 %. */
  lemma PercentOverflows()
    ensures PercentAsWritten(45_000_000, 50_000_000) == 4
    ensures 100 * 45_000_000 / 50_000_000 == 90
  {
  }

  /** Below that size the product does not wrap and the percentages agree. */
  lemma PercentAgreesOnSmallImages(count: nat, fileSize: nat)
    requires count < fileSize && 100 * fileSize < UINT32_LIMIT
    ensures PercentAsWritten(count, fileSize) == 100 * count / fileSize
  {
    var product := 100 * count;
    assert product < 100 * fileSize;
    assert product % UINT32_LIMIT == product;
  }

  /** How the reads of an update's answers go, ReadAnswer throwing when the
      transport fails. For a main or factory image `open` answers the request
      that opens the session and `blocks(k)` the k-th block, after `restart`
      has answered the soft reset into the other firmware; no answer is read
      after the close request. For an FPGA image `open` answers the request
      that opens the session and `close` the one that closes it. */
  datatype UpdateAnswers = UpdateAnswers(restart: Outcome<Error>, open: Outcome<Error>, blocks: nat -> Outcome<Error>, close: Outcome<Error>)

  /** The overload taking a type: a main or factory image is sent block by
      block after a soft reset into the other firmware; an FPGA image goes to
      the FPGA programmer, whose result code 2 means success; any other type
      is refused. `fpgaResult` stands for that programmer's result, and a
      failed read of an answer ends the update with its error. */
  method UpdateFirmware(kind: FirmwareType, image: FirmwareData, blockSize: nat, cancel: nat -> bool, fpgaResult: int,
                        answers: UpdateAnswers)
    returns (r: Outcome<Error>, reset: Option<ResetRequest>, processor: nat, sent: seq<Block>)
    ensures kind == DspFirmware ==> reset == Some(SoftResetRequest(SOFTWARE_TYPE_FACTORY)) && processor == SOFTWARE_TYPE_MAIN
    ensures kind == FactoryFirmware ==> reset == Some(SoftResetRequest(SOFTWARE_TYPE_MAIN)) && processor == SOFTWARE_TYPE_FACTORY
    ensures kind == DspFirmware || kind == FactoryFirmware ==>
              (answers.restart.Fail? ==> r == answers.restart && sent == [])
              && (answers.restart.Pass? && answers.open.Fail? ==> r == answers.open && sent == [])
              && (answers.restart.Pass? && answers.open.Pass? && blockSize == 0 ==> sent == [] && (r.Fail? <==> FileSize(image.firmware) > 0))
              && (answers.restart.Pass? && answers.open.Pass? && blockSize > 0 ==>
                    sent == Transfer(FileSize(image.firmware), blockSize, cancel, answers.blocks, 0, 0)
                    && r == TransferOutcome(answers.blocks, sent))
    ensures kind == FpgaFirmware ==>
              reset == None && processor == SOFTWARE_TYPE_FPGA && sent == []
              && (answers.open.Fail? ==> r == answers.open)
              && (answers.open.Pass? && answers.close.Fail? ==> r == answers.close)
              && (answers.open.Pass? && answers.close.Pass? ==>
                    (r.Pass? <==> fpgaResult == 2) && (r.Fail? ==> r.error == ComError("FPGA Update process failed (SSPIEmbed)", false)))
    ensures kind == OtherFirmware ==>
              r == Fail(InvalidArgument("Firmware type not support for this sensor.")) && reset == None && sent == []
  {
    reset, processor, sent := None, 0, [];
    if kind == DspFirmware || kind == FactoryFirmware {
      processor := if kind == FactoryFirmware then SOFTWARE_TYPE_FACTORY else SOFTWARE_TYPE_MAIN;
      var restart := ResetRequestFor(SoftReset, if kind == DspFirmware then ToFactory else ToMain);
      reset := Some(restart.value);
      if answers.restart.Fail? {
        return answers.restart, reset, processor, sent;
      }
      if answers.open.Fail? {
        return answers.open, reset, processor, sent;
      }
      r, sent := SendBlocks(FileSize(image.firmware), blockSize, cancel, answers.blocks);
    } else if kind == FpgaFirmware {
      processor := SOFTWARE_TYPE_FPGA;
      if answers.open.Fail? {
        return answers.open, reset, processor, sent;
      }
      if answers.close.Fail? {
        return answers.close, reset, processor, sent;
      }
      r := if fpgaResult == 2 then Pass else Fail(ComError("FPGA Update process failed (SSPIEmbed)", false));
    } else {
      r := Fail(InvalidArgument("Firmware type not support for this sensor."));
    }
  }
}
