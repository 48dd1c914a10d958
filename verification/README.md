# LMCache: a verified model of its native core

A Dafny model of the parts of LMCache whose correctness is spread over several
functions, loops or interleaved steps, with proofs about every input, every run
or every reachable state. `dafny verify dfyconfig.toml` checks everything.

- **Arithmetic coder** (`Sequences`, `Bits`, `CoderSpec`, `CoderProof`, `CoderLength`,
  `BitWriter`, `CoderKernel`, `CdfTable`, `ChannelLength`, `ChannelKernel`). The
  CacheGen encoder and decoder of one channel as the kernels run them (32-bit
  registers, pending bits, a byte row written in place, a byte cursor) are proved
  equal to a bit-level specification, for which decoding undoes encoding whatever
  follows the stream. The stream's length is within two bits, and rounding, of the
  information in the symbols. The tables the CDF kernel builds meet the coder's
  demands, and a channel encoded with its own table fits its row.
- **Native connector** (`Tiling`, `Connector`, `ConnectorProof`, `ConnectorRuns`,
  `ConnectorOutcomes`, `ConnectorProgress`). A transition system with one step per critical section,
  atomic operation or key call; any number of submitters, workers and drains, in
  any interleaving, with stops and crashes. Safety holds in every reachable
  state, the connector's own steps always come to an end, and then a client that
  drains whenever the fd is readable has received every batch exactly once.
- **Device lint** (`LintSyntax`, `LintAnalysis`, `LintSoundness`,
  `LintExactness`, `LintGaps`, `LintForms`, `LintVisitor`). A concrete semantics of a
  one-scope fragment of Python, the abstract interpreter over it, and the visitor object that
  runs it. Some run performs a direct device reference on a line exactly when the
  line is reported or the reference has one of two forms the visitor passes over.
- **Block KV transfer** (`Radix`, `KvFormat`, `TransferMap`, `ByteMoves`,
  `WorkGrid`, `TransferJob`, `TransferBytes`, `TransferKernel`, `Transfer`). Twenty
  engine formats, their strides, the launch/group/tile/lane decomposition and the
  unit-wide copies over one flat memory; the lanes of a launch run in an arbitrary
  order. What a call does is stated on its arguments, byte by byte.
- **Bitmap and fold** (`PackedBits`, `Bitmap`, `FoldSpec`, `Fold`). The packed
  bitmap as a class over a byte array that refines a finite set, and the run-counter
  fold with its inverse.
- **Codecs and matching** (`KeyCodec`, `KeyFiles`, `SlotRuns`, `SlotText`,
  `RangeMatcher`). File names for wire keys, slot lists and their text form, and the
  range matcher.

Where the code and its documentation differ the code is followed: `fold` returns a
bitmap of `num_chunks` bits (the binding's text speaks of `num_chunks + 1`), and the
block stride field is honoured for every block-major single-plane format, not only
for the one its comment names.

Some properties turn out to hold only under a condition. Each comes with an input at
which it fails, and with the condition, both ways:

- The lint misses nothing (`LintGaps.NothingMissedIff`) exactly when every augmented
  assignment to a possible device and every load of a name bound by
  `import torch.<device> as` is on a line reported anyway. `x = torch.cuda` then
  `x += 1` (`LintGaps.UpdateMissed`), and `import torch.cuda as c` then `c`
  (`LintGaps.AliasMissed`), are missed.
- The union of two bitmaps keeps its padding clear (`Bitmaps.OrKeepsPaddingIff`,
  `Bitmaps.OrLeaks`).
- A key survives its file name (`KeyFiles.RoundTripIff`, `KeyFiles.EmptySaltLost`),
  and has that name for itself among the readable keys (`KeyFiles.SharedIff`).
- A slot list survives its text (`SlotText.TextRoundTripIff`,
  `SlotText.NegativeRunLost`).
- A stream fits its 256-byte row. The product of the symbols' table shares decides it
  for every table and every sequence, exact up to two bits and rounding
  (`CoderLength.LengthDecided`, `ChannelLength.RowDecided`). A channel of at most 256
  tokens encoded with its own table always fits (`ChannelLength.OwnRowFits`). A cut of
  a longer channel, which the serializer encodes with the table of the whole, need not
  (`ChannelLength.RowOverflows`).

## Model

| member | source | states |
|---|---|---|
| CoderSpec.NarrowInside | csrc/sycl/ac_enc_sycl.cpp:187-196 | From a settled state every symbol's interval lies in the old one and keeps at least 2^14 values |
| CoderSpec.SlotIffInterval | csrc/sycl/ac_dec_sycl.cpp:164-188 | A value lies in a symbol's narrowed interval if and only if the count formula falls in that symbol's slot |
| CoderSpec.CountBound | csrc/sycl/ac_dec_sycl.cpp:166-171 | For a value inside the interval the count fits 16 bits |
| CoderProof.RenormaliseBound | csrc/sycl/ac_enc_sycl.cpp:198-222 | A settled interval has more than 2^30 values and renormalising takes at most 18 doublings |
| CoderProof.FromCorrect | csrc/sycl/ac_enc_sycl.cpp:182-234 | From every settled encoder state with any pending count, the rest of the stream decodes to the rest of the symbols |
| CoderProof.ShiftCorrect | csrc/sycl/ac_enc_sycl.cpp:198-222 | The same from every state still to be renormalised: the three cases and the pending-bit accounting together |
| CoderProof.FlushWindow | csrc/sycl/ac_enc_sycl.cpp:225-232 | The flush pins the decoder's register to a quarter inside the final interval, whatever bits follow |
| CoderProof.FlushPins | csrc/sycl/ac_enc_sycl.cpp:225-232 | The quarter named is the first one that begins above the lower bound, and it lies inside the interval |
| CoderProof.RoundTrip | csrc/sycl/ac_enc_sycl.cpp:170-234 | Decoding the encoder's bits returns exactly the symbols for every valid table, every sequence and every padding; the decoder shifts in at least two bits fewer than were emitted |
| CoderLength.LengthBounds | csrc/sycl/ac_enc_sycl.cpp:182-234 | 2^length times the product of the symbols' table shares, each taken long by one unit of 2^-30, is at least 1; 2^(length - 2) times the product of the shares taken short by one unit is at most 1 |
| CoderLength.LengthDecided | csrc/sycl/ac_enc_sycl.cpp:182-234 | For every table, sequence and number of bits: the stream fits if the product of the shares, short by a unit each, exceeds 2^-(bits - 1), and does not if the product, long by a unit each, is below 2^-bits |
| CoderLength.ShiftBalanced | csrc/sycl/ac_enc_sycl.cpp:198-222 | From every state still to be renormalised, the bits to come, pending bits included, and the shares to come take the span to between 2^30 and 2^32 |
| CoderLength.StreamLength | csrc/sycl/ac_enc_sycl.cpp:182-234 | n symbols take at most 17n + 2 bits, whatever the table |
| CoderLength.NarrowSlots | csrc/sycl/ac_enc_sycl.cpp:182-234 | n symbols with slots narrower than 1/2^b of the table take at least bn bits |
| BitWriter.Writer.SpillReg | csrc/sycl/ac_enc_sycl.cpp:60-76 | A full register becomes four big-endian bytes, which are its 32 bits |
| BitWriter.Writer.AddBits | csrc/sycl/ac_enc_sycl.cpp:94-108 | Appends num copies of a bit to everything written so far; no byte outside the written part of the row changes |
| BitWriter.Writer.AppendBitAndPending | csrc/sycl/ac_enc_sycl.cpp:111-120 | Appends the bit and then its pending complements |
| BitWriter.Writer.SpillPartial | csrc/sycl/ac_enc_sycl.cpp:79-91 | The remaining bits are written out, padded with zeros to a byte |
| CoderKernel.Renormalise | csrc/sycl/ac_enc_sycl.cpp:198-222 | What was written plus what the specification still has to emit is unchanged, and the interval ends settled |
| CoderKernel.EncodeSymbol | csrc/sycl/ac_enc_sycl.cpp:187-222 | One symbol in 32-bit arithmetic follows the specification by one symbol |
| CoderKernel.EncodeChannel | csrc/sycl/ac_enc_sycl.cpp:171-238 | The row holds the specified bit string padded to bytes, the length is its byte count, and no other byte of the buffer is touched |
| CoderKernel.Binsearch | csrc/sycl/ac_dec_sycl.cpp:52-69 | Finds the symbol whose slot holds the target, reading no entry above max_sym |
| CoderKernel.FindSymbol | csrc/sycl/ac_dec_sycl.cpp:164-174 | Count formula and search return the specified symbol |
| CoderKernel.RenormaliseValue | csrc/sycl/ac_dec_sycl.cpp:190-214 | The registers and the byte cursor move together: what is still to be decoded and read is unchanged |
| CoderKernel.DecodeChannel | csrc/sycl/ac_dec_sycl.cpp:142-215 | Returns the specified symbols from the row's bytes, with every byte read inside the given memory |
| CdfTable.TableIsValid | csrc/sycl/cal_cdf_sycl.cpp:87-123 | Every table starts at 0, is strictly increasing, ends at 0xFFFF when there is a token, and meets the coder's precondition |
| CdfTable.NormalizeExact | csrc/sycl/cal_cdf_sycl.cpp:46-52 | Up to 65535 tokens no 16- or 32-bit step of the normalisation wraps |
| CdfTable.Histogram | csrc/sycl/cal_cdf_sycl.cpp:87-100 | Counts of every value, shifted by one, modulo 2^16 for any number of tokens |
| CdfTable.PrefixSum | csrc/sycl/cal_cdf_sycl.cpp:104-109 | Counts of all smaller values and the total, in place, modulo 2^16 |
| CdfTable.Normalise | csrc/sycl/cal_cdf_sycl.cpp:111-122 | Every entry from its wrapped count and the wrapped total, in place, with or without tokens |
| CdfTable.CalculateCdf | csrc/sycl/cal_cdf_sycl.cpp:87-131 | Every stored int16 is the entry itself below 0x8000 and the entry less 0x10000 from there on; entries are those of the wrapped counts for any number of tokens, and the table for up to 65535 |
| CdfTable.StoredIsTable | csrc/sycl/cal_cdf_sycl.cpp:104-123 | Up to 65535 tokens the 16-bit counters give the specified table |
| CdfTable.StoredExactly | csrc/sycl/cal_cdf_sycl.cpp:46-123 | For any number of tokens an entry is the wrapped share of the wrapped counts plus the bin, in whole numbers |
| CdfTable.ChannelRoundTrip | csrc/sycl/ac_dec_sycl.cpp:142-215 | Building the table, encoding and decoding return the channel's symbols, for every channel of fewer than 65536 bins |
| CdfTable.BytesRoundTrip | csrc/sycl/ac_dec_sycl.cpp:142-215 | A row that starts with the encoder's bytes decodes to the symbols and no byte past length + 3 is read, whatever it holds |
| ChannelLength.RowDecided | csrc/sycl/ac_enc_sycl.cpp:51-53 | The same for the 2048 bits of a row |
| ChannelLength.SlotWidth | csrc/sycl/cal_cdf_sycl.cpp:87-123 | A value's slot is as wide as its share of the tokens, up to rounding, from both sides |
| ChannelLength.OwnTableLength | csrc/sycl/ac_enc_sycl.cpp:51-53 | A channel of at most 256 tokens and fewer than 64 bins, encoded with its own table, takes at most 29/4 bits per token and one per bin |
| ChannelLength.OwnRowFits | csrc/sycl/ac_enc_sycl.cpp:51-53 | So it always fits the 256-byte row, with room for the decoder's look-ahead |
| ChannelLength.RareOverflows | lmcache/inprocess/v1/storage_backend/legacy_serde/cachegen_encoder.py:299-321 | 228 tokens of values that each make up at most 1/525 of the channel overflow the row |
| ChannelLength.RowOverflows | lmcache/inprocess/v1/storage_backend/legacy_serde/cachegen_encoder.py:299-321 | A channel of 4725 tokens with the values 0 to 30 of 32 bins whose first cut of 256 tokens does not fit |
| ChannelKernel.StoreChannel | lmcache/inprocess/v1/storage_backend/legacy_serde/cachegen_encoder.py:299-321 | Table kernel and encoder kernel leave the stream in the row, touching no other byte, with no demand on its length |
| ChannelKernel.ThroughRow | csrc/sycl/ac_enc_sycl.cpp:307-316 | Refuses 64 bins and more, no bin, more than 256 tokens and tables longer than 48, in that order, touching nothing; otherwise the three kernels in turn return the tokens, and the decoder reads its own row only |
| Tiling.StartsPartition | csrc/storage_backends/connector_base.h:378-388 | The ranges of start and end that the tiles get are consecutive and partition the keys |
| Tiling.OwnerExists | csrc/storage_backends/connector_base.h:378-388 | Every key lies in exactly one tile |
| Tiling.TileSizesBalanced | csrc/storage_backends/connector_base.h:380-386 | Tile sizes differ by at most one, the larger ones first, and none is empty |
| ConnectorRuns.StepKeeps | csrc/storage_backends/connector_base.h:445-636 | Every enabled step of every kind keeps the invariant: each tile in one place, batches, workers, announcements and wakeup flag in agreement |
| ConnectorRuns.RunKeeps | csrc/storage_backends/connector_base.h:445-636 | The invariant holds after every run |
| ConnectorRuns.NoLostWakeup | csrc/storage_backends/connector_base.h:189-215 | In every reachable state with an undrained completion, no producer between push and notify and no drain under way, the fd is readable |
| ConnectorRuns.CompletionsConserved | csrc/storage_backends/connector_base.h:189-215 | What was pushed is what was drained followed by what is queued, in order |
| ConnectorRuns.AtMostOnce | csrc/storage_backends/connector_base.h:605-636 | At most one completion per future id, in every run |
| ConnectorRuns.OnlyAfterAllTiles | csrc/storage_backends/connector_base.h:615-635 | A completion is pushed only after all tiles of its batch were counted |
| ConnectorRuns.OkIffNoTileRaised | csrc/storage_backends/connector_base.h:606-627 | ok holds if and only if no tile raised; otherwise the error is a raising tile's; GET and DELETE batches are always ok |
| ConnectorRuns.BytesAreOutcomes | csrc/storage_backends/connector_base.h:314-350 | Byte i is 1 if key i's GET did not throw, EXISTS found it or DELETE removed it, and 0 otherwise; SET carries none; when the completion is ok every key was called |
| ConnectorOutcomes.StepTraced | csrc/storage_backends/connector_base.h:445-636 | Every step keeps track of which call threw what and of which worker holds which tile |
| ConnectorOutcomes.OkIffNoCallThrew | csrc/storage_backends/connector_base.h:606-627 | A completion is not ok if and only if its operation is SET or EXISTS and one of its calls threw; it then carries the error of such a call, and otherwise none |
| ConnectorOutcomes.LaneWorkers | csrc/storage_backends/connector_base.h:445-462 | A tile is executed by a worker of its operation's own lane, or of the shared queue when it has none |
| ConnectorRuns.AnyAnswer | csrc/storage_backends/connector_base.h:314-350 | In every reachable state the call for the next key of a running tile may answer or throw anything |
| ConnectorRuns.NothingForbidden | csrc/storage_backends/connector_base.h:80-187 | Clients may submit and drain, and stops and crashes may come, at any time |
| ConnectorRuns.CalledOnce | csrc/storage_backends/connector_base.h:314-350 | No key is called twice |
| ConnectorRuns.QuietAnnouncedIff | csrc/storage_backends/connector_base.h:586-636 | At rest a batch was announced if and only if none of its tiles was lost to a crash or a stop |
| ConnectorRuns.ExactlyOnce | csrc/storage_backends/connector_base.h:80-187 | At rest, without a stop or a crash, every submitted batch was announced |
| ConnectorRuns.StuckIsQuiet | csrc/storage_backends/connector_base.h:537-603 | No deadlock: a state in which no step of the connector itself is possible is at rest |
| ConnectorProgress.StepDescends | csrc/storage_backends/connector_base.h:445-636 | Every step the connector takes by itself lowers a natural-number potential |
| ConnectorProgress.InternalRunsEnd | csrc/storage_backends/connector_base.h:537-636 | From every reachable state, no run of the connector's own steps is longer than that potential |
| ConnectorProgress.RestAnnounces | csrc/storage_backends/connector_base.h:537-636 | A healthy connector that can do nothing more by itself has announced every batch |
| ConnectorProgress.AllDelivered | csrc/storage_backends/connector_base.h:80-187 | A healthy connector at rest, no drain under way and the fd not readable: every batch was drained exactly once |
| ConnectorProgress.EventuallyAnnounced | csrc/storage_backends/connector_base.h:80-187 | From every healthy reachable state the connector reaches, by itself, a state in which every batch is announced |
| LintAnalysis.MergeAllAbove | tools/check_direct_torch_device.py:161-173 | Every joined path is below the join |
| LintAnalysis.MergeAllFrom | tools/check_direct_torch_device.py:161-173 | Every mark of the join comes from one of the paths |
| LintAnalysis.HeaderGrows | tools/check_direct_torch_device.py:396-425 | A loop header that changed has strictly more facts of a finite space, so the fixed point ends for every program, nested loops included |
| LintAnalysis.NextHeaderAbove | tools/check_direct_torch_device.py:418-423 | Each new header is above the previous one |
| LintSoundness.LoopCloses | tools/check_direct_torch_device.py:396-425 | The final header is above the entry and closed under one more pass, and keeps all that pass finds |
| LintSoundness.SoundStmt | tools/check_direct_torch_device.py:295-450 | For every statement, covering state, choice of branches and form of reference the analysis accounts for the run's lines, bindings and way out |
| LintSoundness.RunsFound | tools/check_direct_torch_device.py:639-648 | For each form of reference: whatever any run performs, with torch bound at the start or not, is on a line the analysis finds |
| LintExactness.CompleteStmt | tools/check_direct_torch_device.py:295-450 | Every binding, exit and line the analysis finds for a statement is realised by some run |
| LintExactness.CompleteLoop | tools/check_direct_torch_device.py:389-432 | The same for the loop's fixed point, over runs of any number of turns |
| LintExactness.FoundIff | tools/check_direct_torch_device.py:639-648 | For each form of reference: a line is found if and only if some run performs such a reference on it |
| LintGaps.SplitBlock | tools/check_direct_torch_device.py:336-338 | A run's references are those of the forms the visitor looks at and those of the two forms it passes over |
| LintGaps.PerformedIff | tools/check_direct_torch_device.py:676-694 | Some run performs a reference on a line if and only if the line is reported or a gap |
| LintGaps.NothingMissedIff | tools/check_direct_torch_device.py:676-694 | No run from any start performs an unreported reference if and only if every gap is on a reported line |
| LintGaps.ReportedIff | tools/check_direct_torch_device.py:676-694 | The report is exactly the lines runs perform references on, under that condition and only then |
| LintGaps.PlainHasNoGap | tools/check_direct_torch_device.py:295-338 | A program without augmented assignments and imports of a device with as has no gap |
| LintGaps.UpdateMissed | tools/check_direct_torch_device.py:336-338 | A program whose read of an augmented target is missed |
| LintGaps.AliasMissed | tools/check_direct_torch_device.py:295-306 | A program whose load of an imported alias is missed |
| LintForms.ImportPerforms | tools/check_direct_torch_device.py:295-319 | Running an import performs a reference if and only if it names a device |
| LintForms.ImportReported | tools/check_direct_torch_device.py:295-319 | An import is reported if and only if it names a device |
| LintForms.ImportThenLoad | tools/check_direct_torch_device.py:295-319 | Of names bound by imports, the load of one from "from torch import <device>" is reported, and it and the alias of "import torch.<device> as" are references |
| LintForms.ImportThenAttribute | tools/check_direct_torch_device.py:639-642 | A device attribute is reported, and a reference, of exactly the names that imports bind to torch |
| LintForms.AliasReported | tools/check_direct_torch_device.py:321-326 | A name assigned a device attribute is reported where it is loaded, and only for devices |
| LintForms.TorchAliasReported | tools/check_direct_torch_device.py:321-326 | A device attribute of a name assigned torch is reported |
| LintForms.WalrusReported | tools/check_direct_torch_device.py:340-345 | A name bound inside an expression is followed too |
| LintForms.UnboundNotReported | tools/check_direct_torch_device.py:336-361 | A deleted, reassigned, updated or re-imported name is not |
| LintForms.BranchReported | tools/check_direct_torch_device.py:363-365 | A name that only one branch binds to a device is reported behind the branches |
| LintForms.LoopReported | tools/check_direct_torch_device.py:389-432 | A load before the assignment in a loop body is reported, for the second turn |
| LintForms.UnreachableNotReported | tools/check_direct_torch_device.py:175-179 | Nothing behind a raise is reported |
| LintVisitor.DeviceVisitor.Expression | tools/check_direct_torch_device.py:340-369 | Visiting an expression updates bindings and lines as the analysis says and yields its marks |
| LintVisitor.DeviceVisitor.Statement | tools/check_direct_torch_device.py:295-450 | Visiting a statement changes bindings, reachability, exits and lines as the analysis says |
| LintVisitor.DeviceVisitor.Branches | tools/check_direct_torch_device.py:184-196 | Branches start from the same bindings and the reachable outcomes join |
| LintVisitor.DeviceVisitor.Block | tools/check_direct_torch_device.py:175-179 | Statements are visited while the end can be reached |
| LintVisitor.DeviceVisitor.FixedPoint | tools/check_direct_torch_device.py:392-425 | The header loop ends with the analysis' exhausted bindings, break states, outer exits and lines |
| LintVisitor.DeviceVisitor.Loop | tools/check_direct_torch_device.py:389-432 | Fixed point, else block and joining the ways out give the analysis' flow |
| LintVisitor.DirectDeviceLines | tools/check_direct_torch_device.py:676-694 | The second of two passes reports exactly the analysis' lines |
| KvFormat.FactsMatchName | csrc/engine_kv_format.h:227-315 | The facts table of all twenty formats agrees with the axes of their names |
| KvFormat.ResolveLayout | csrc/sycl/mp_mem_kernels_sycl.cpp:31-82 | Accepts exactly the supported shapes, resolves the strides of the format's family, and names the first failing check otherwise |
| TransferMap.LayoutIsNamed | csrc/engine_kv_format.h:36-183 | For every supported format the resolved strides are the row-major strides of the tensor list its name describes |
| TransferMap.EngineInBounds | csrc/sycl/mp_mem_kernels_sycl.cpp:114-118 | Every engine byte lies under an existing pointer, within its span |
| TransferMap.EngineInjective | csrc/sycl/mp_mem_kernels_sycl.cpp:114-139 | Distinct bytes of distinct blocks never share an engine byte, head-major and blocked-scale permutations included |
| TransferMap.ObjectInBounds | csrc/sycl/mp_mem_kernels_sycl.cpp:119-122 | Every object byte lies within the object |
| TransferMap.ObjectInjective | csrc/sycl/mp_mem_kernels_sycl.cpp:112-122 | Distinct bytes never share an object byte |
| WorkGrid.VisitedOnce | csrc/sycl/mp_mem_kernels_sycl.cpp:91-126 | Each unit of each plane, layer and block of a launch is visited by exactly one lane of one group |
| WorkGrid.VisitedInside | csrc/sycl/mp_mem_kernels_sycl.cpp:91-126 | Nothing outside the launch is visited |
| TransferKernel.LaunchedOnce | csrc/sycl/mp_mem_kernels_sycl.cpp:162-168 | Each block from skip on is covered by the launch of its objects and by no other |
| TransferJob.UnitFor | csrc/sycl/mp_mem_kernels_sycl.cpp:242-262 | The widest unit that divides a head and splits no scale column |
| TransferJob.UnitIsBytes | csrc/sycl/mp_mem_kernels_sycl.cpp:124-151 | Copying units of 16, 4, 2 or 1 bytes touches, on both sides, exactly the bytes a byte-wise copy would |
| TransferBytes.ObjectByteIs | csrc/sycl/mp_mem_kernels_sycl.cpp:101-123 | The address in an object, from the arguments: tokens numbered through, a chunk per object, per plane and layer their rows one after the other |
| TransferBytes.EngineByteIs | csrc/sycl/mp_mem_kernels_sycl.cpp:101-145 | The address in the paged buffers, from the arguments: the element of the tensor that the format's name describes, whole blocks moved apart by a wider stride |
| TransferBytes.EngineSpanTight | csrc/sycl/mp_mem_kernels_sycl.cpp:101-119 | The memory a pointer must own ends with the last byte of the last block |
| TransferJob.ByteHasUnit | csrc/sycl/mp_mem_kernels_sycl.cpp:91-96 | Every byte of a block belongs to a unit |
| TransferJob.MovesInto | csrc/sycl/mp_mem_kernels_sycl.cpp:114-143 | Every move writes inside the direction's side, reads outside it and stays in memory |
| TransferKernel.UnitAddresses | csrc/sycl/mp_mem_kernels_sycl.cpp:112-141 | The kernel's address arithmetic is that of the byte's place |
| TransferKernel.RunLane | csrc/sycl/mp_mem_kernels_sycl.cpp:101-152 | One lane traps on a bad id and otherwise copies exactly its stride of the tile |
| TransferKernel.Submit | csrc/sycl/mp_mem_kernels_sycl.cpp:85-154 | In whatever order the lanes run, a launch copies all its blocks or traps on a bad id |
| Transfer.LaunchBlocks | csrc/sycl/mp_mem_kernels_sycl.cpp:157-182 | All launches make exactly the transfer's moves, or trap if and only if some id is bad |
| Transfer.MultiLayerBlockTransfer | csrc/sycl/mp_mem_kernels_sycl.cpp:186-264 | On the arguments: the outcome is the first check that fails, a trap for a bad id, or done; H2D writes the paged buffers only and D2H the objects only; when done, every byte of every block from skip on holds the old byte of the other side, for disjoint targets and, for H2D, unique ids |
| Transfer.OffloadRestore | csrc/sycl/mp_mem_kernels_sycl.cpp:101-181 | Offload then restore with the same ids leaves all memory but the objects unchanged, repeated ids included |
| Transfer.RestoreOffload | csrc/sycl/mp_mem_kernels_sycl.cpp:101-181 | Restore with unique ids then offload leaves all memory but the paged buffers, hence every object byte, unchanged |
| Transfer.StoreThenLoad | csrc/sycl/mp_mem_kernels_sycl.cpp:186-264 | A D2H call and an H2D call with the same arguments leave all memory but the objects as it was |
| Transfer.LoadThenStore | csrc/sycl/mp_mem_kernels_sycl.cpp:186-264 | An H2D call with unique ids and a D2H call leave all memory but the paged buffers as it was |
| Transfer.PlacesKept | csrc/sycl/mp_mem_kernels_sycl.cpp:162-168 | The places of skipped blocks and of blocks past the last id are never written |
| Transfer.PaddingKept | csrc/sycl/mp_mem_kernels_sycl.cpp:66-76 | The padding behind a block is never written |
| Transfer.OtherBlocksKept | csrc/sycl/mp_mem_kernels_sycl.cpp:109-119 | Paged blocks whose id is not listed from skip on are never written |
| PackedBits.DecValue | csrc/lmcache_native/bitmap.cpp:194-194 | The borrow chain on bits is subtraction of one modulo the width |
| PackedBits.ClearLowest | csrc/lmcache_native/bitmap.cpp:186-195 | b & (b - 1) clears the lowest set bit and no other |
| Bitmaps.Bitmap.constructor | csrc/lmcache_native/bitmap.cpp:21-22 | The empty set, padding clear |
| Bitmaps.Bitmap.Prefix | csrc/lmcache_native/bitmap.cpp:24-39 | The set of indices below prefix and size |
| Bitmaps.Bitmap.Set | csrc/lmcache_native/bitmap.cpp:41-44 | Adds the index when it is below the size; padding stays clear |
| Bitmaps.Bitmap.SetRange | csrc/lmcache_native/bitmap.cpp:50-76 | Adds every index of the range below the size, as setting them one by one would; padding stays clear |
| Bitmaps.Bitmap.Clear | csrc/lmcache_native/bitmap.cpp:78-81 | Removes the index; padding stays clear |
| Bitmaps.Bitmap.Test | csrc/lmcache_native/bitmap.cpp:83-86 | Membership |
| Bitmaps.Bitmap.Popcount | csrc/lmcache_native/bitmap.cpp:88-109 | Cardinality, padding or not |
| Bitmaps.Bitmap.Clz | csrc/lmcache_native/bitmap.cpp:111-141 | The least element, or the size |
| Bitmaps.Bitmap.Clo | csrc/lmcache_native/bitmap.cpp:143-146 | The least index not in the set, or the size |
| Bitmaps.Bitmap.HighestSetBit | csrc/lmcache_native/bitmap.cpp:148-162 | The highest stored bit or -1; with clear padding the maximum of the set |
| Bitmaps.Bitmap.And | csrc/lmcache_native/bitmap.cpp:164-171 | Intersection at the smaller size, padding kept clear |
| Bitmaps.Bitmap.Or | csrc/lmcache_native/bitmap.cpp:173-180 | Union cut at the smaller size, and the bytes it stores |
| Bitmaps.Bitmap.Not | csrc/lmcache_native/bitmap.cpp:225-238 | Complement below the size, padding clear |
| Bitmaps.Bitmap.GetIndices | csrc/lmcache_native/bitmap.cpp:182-198 | All elements in ascending order |
| Bitmaps.OrKeepsPaddingIff | csrc/lmcache_native/bitmap.cpp:173-180 | Union keeps padding clear for all contents if and only if the sizes agree or the smaller one is a multiple of 8 |
| Bitmaps.OrLeaks | csrc/lmcache_native/bitmap.cpp:173-180 | For every shorter size not divisible by 8 a longer bitmap leaves a bit in the padding |
| FoldSpec.RunDecides | csrc/lmcache_native/fold.cpp:20-44 | The run counter reaches the clamped window exactly when the window's chunks are all present |
| FoldSpec.Adjunction | csrc/lmcache_native/fold.h:14-37 | A length is servable if and only if every bit it needs was found |
| FoldSpec.RowServesExactly | csrc/lmcache_native/fold.cpp:28-44 | A row serves a length if and only if it holds the last window chunks of it, or all of them for a window that is not positive |
| FoldSpec.ServableNeeds | csrc/lmcache_native/fold.cpp:13-47 | For a servable length, bit c * groups * ranks + g * ranks + r was found for every rank r, group g and chunk c of its window |
| FoldSpec.UnservableLacks | csrc/lmcache_native/fold.cpp:13-47 | For any other length such a bit is missing |
| FoldSpec.NeededExactly | csrc/lmcache_native/fold.cpp:55-82 | Bit c * groups * ranks + g * ranks + r is needed if and only if chunk c is in the window of group g |
| FoldSpec.NeededIsCell | csrc/lmcache_native/fold.cpp:55-82 | No other bit is needed |
| FoldSpec.RowsServeExactly | csrc/lmcache_native/fold.cpp:84-125 | The same for rows: all of them hold their windows |
| FoldSpec.HitIsLargest | csrc/lmcache_native/fold.h:20-22 | Everything the hit needs was found, and no longer prefix has that |
| FoldSpec.FoldsAgree | csrc/lmcache_native/fold.cpp:26-46 | Folding the ranked bitmap equals folding its de-interleaved rows with windows repeated per rank |
| FoldSpec.UnfoldsAgree | csrc/lmcache_native/fold.cpp:69-80 | The ranked retain mask is the interleaving of the rows' masks |
| Fold.SweepGroup | csrc/lmcache_native/fold.cpp:26-45 | One group's sweep clears exactly the lengths it cannot serve |
| Fold.FoldRanked | csrc/lmcache_native/fold.cpp:13-53 | Bit j is set if and only if every group serves length j + 1; the result has num_chunks bits |
| Fold.HitLength | csrc/lmcache_native/fold.h:19-22 | highest_set_bit + 1 is the largest servable length |
| Fold.UnfoldRanked | csrc/lmcache_native/fold.cpp:55-82 | The mask holds exactly the bits the clamped length needs |
| Fold.FoldGrouped | csrc/lmcache_native/fold.cpp:84-125 | Refuses exactly unequal list lengths or row sizes; otherwise bit j is set if and only if every row serves length j + 1 |
| Fold.UnfoldGrouped | csrc/lmcache_native/fold.cpp:127-143 | Row i holds exactly the last window chunks of the clamped length, or all of them for a window that is not positive |
| KeyCodec.SplitKey | csrc/storage_backends/keys.h:51-58 | The field loop computes the split of the key |
| KeyCodec.SplitJoin | csrc/storage_backends/keys.h:51-58 | Splitting undoes joining of fields without separators |
| KeyCodec.JoinSplit | csrc/storage_backends/keys.h:51-58 | Joining undoes splitting, for every string |
| KeyCodec.ReplaceAll | csrc/storage_backends/keys.h:15-24 | The in-place loop replaces every leftmost non-overlapping occurrence |
| KeyCodec.RestoredIff | csrc/storage_backends/keys.h:133-139 | Restoring undoes the slash replacement if and only if the name contains neither "-SEP-" nor "-SEP/" |
| KeyFiles.KeyToFilename | csrc/storage_backends/keys.h:26-105 | Refuses exactly malformed keys and, when sharding, short hashes; otherwise the flat name behind its shard prefix |
| KeyFiles.FilenameToKey | csrc/storage_backends/keys.h:117-164 | The key of the name, or empty for anything that is not a well-formed data file |
| KeyFiles.EmptyKeyIff | csrc/storage_backends/keys.h:117-138 | The key is empty if and only if the name is not a well-formed data file |
| KeyFiles.RoundTripIff | csrc/storage_backends/keys.h:107-164 | A key of four to six fields survives its file name if and only if a fifth field is not an empty last salt and the model name is unambiguous |
| KeyFiles.EmptySaltLost | csrc/storage_backends/keys.h:107-164 | Every five-field key with an empty salt is read back as another key |
| KeyFiles.PlainName | csrc/storage_backends/keys.h:11-105 | The file name of a key of four fields, letter by letter |
| KeyFiles.SlashName | csrc/storage_backends/keys.h:11-105 | A slash in the model name becomes -SEP- |
| KeyFiles.SaltName | csrc/storage_backends/keys.h:11-105 | A salt that is not empty is a fifth field of the name |
| KeyFiles.NamesInjective | csrc/storage_backends/keys.h:26-105 | File names are injective on those keys |
| KeyFiles.NameOwner | csrc/storage_backends/keys.h:26-164 | Every file name of a key belongs to a readable key, the one it is read back as, and that is the key itself if and only if the key is readable |
| KeyFiles.SharedIff | csrc/storage_backends/keys.h:26-164 | A key shares its file name with another, readable key if and only if it is not readable |
| KeyFiles.SameNameIff | csrc/storage_backends/keys.h:26-164 | Two keys share a file name if and only if they are read back as the same key |
| KeyFiles.NamesCollide | csrc/storage_backends/keys.h:72-73 | For every rank, group and hash two model names share a file name |
| SlotRuns.Decompress | lmcache/utils.py:252-273 | Concatenation of what the items stand for |
| SlotRuns.Compress | lmcache/utils.py:197-232 | The loop emits run after run |
| SlotRuns.AppendRange | lmcache/utils.py:235-250 | Three or more become a range, fewer stay single |
| SlotRuns.RoundTrip | lmcache/utils.py:197-273 | Expanding the compressed list gives the list back, for every integer list |
| SlotRuns.RangesAreLongRuns | lmcache/utils.py:197-213 | Range items stand for exactly the maximal consecutive runs of length three or more |
| SlotText.SplitParts | lmcache/utils.py:297-327 | The bracket-aware split, with its three errors |
| SlotText.ParseParts | lmcache/utils.py:329-352 | Each part is a pair or a number; the first bad part decides the error |
| SlotText.ParseMixed | lmcache/utils.py:276-365 | White space removed, split, parts read, ranges expanded, or the error |
| SlotText.ScanRender | lmcache/utils.py:297-327 | The scanner cuts printed items apart again |
| SlotText.ScanSucceedsIff | lmcache/utils.py:302-327 | The split succeeds if and only if brackets are closed and never nest |
| SlotText.ScanKeepsText | lmcache/utils.py:302-324 | The parts hold every character but the separating commas, in order |
| SlotText.ScanErrorAt | lmcache/utils.py:303-312 | The first bracket out of place decides between the nested and the unmatched error |
| SlotText.ScanUnclosed | lmcache/utils.py:326-327 | A bracket left open is the third error |
| SlotText.BlanksIgnored | lmcache/utils.py:295 | Blanks, tabs and line ends anywhere in the text change nothing |
| SlotText.VisibleKept | lmcache/utils.py:295 | Visible characters are not removed |
| SlotText.BackwardsRefused | lmcache/utils.py:337-342 | A range that runs backwards is refused |
| SlotText.SignRead | lmcache/utils.py:345-348 | A number may carry a sign |
| SlotText.UnderscoreRead | lmcache/utils.py:345-348 | An underscore between digits is skipped |
| SlotText.StrangeRefused | lmcache/utils.py:345-350 | A part that begins with anything else is refused |
| SlotText.DocumentedExample | lmcache/utils.py:281-284 | The documented text gives the documented slots |
| SlotText.RenderParses | lmcache/utils.py:276-365 | Parsing printed items gives their slots, or fails when a range starts below zero |
| SlotText.TextRoundTripIff | lmcache/utils.py:276-365 | Printing the compressed list and parsing it gives the list back if and only if no three consecutive slots start below zero |
| SlotText.NegativeRunLost | lmcache/utils.py:276-365 | The slots -1, 0, 1 do not survive |
| RangeMatcher.MatchesAt | csrc/lmcache_native/utils.cpp:53-64 | The pattern occurs at the position |
| RangeMatcher.MatchIsSlice | csrc/lmcache_native/utils.cpp:53-64 | Occurring at a position means being the slice of the data there |
| RangeMatcher.NoEndNoRange | csrc/lmcache_native/utils.cpp:97-100 | A start without an end behind it ends the search, so skipping the start pattern loses nothing |
| RangeMatcher.Match | csrc/lmcache_native/utils.cpp:66-108 | The skipping scan returns what the scan that advances by one returns, for all data and non-empty patterns |
| RangeMatcher.NaiveIsGreedy | csrc/lmcache_native/utils.cpp:75-95 | Each range has the leftmost start that has an end and the first end behind it; after the last there is none |
| RangeMatcher.GreedyUnique | csrc/lmcache_native/utils.cpp:75-95 | Only one list of ranges has that property |
| RangeMatcher.GreedyAscends | csrc/lmcache_native/utils.cpp:66-108 | The ranges ascend and do not overlap |
| RangeMatcher.RangesHold | csrc/lmcache_native/utils.cpp:75-95 | A range begins with the start pattern and ends, exclusively, with the end pattern |

## Left out

- CoderKernel.EncodeChannel: requires that the stream fits its row, which the kernel does not check. `ChannelLength.OwnRowFits` shows it for a channel's own table, and `ChannelKernel.StoreChannel` has no such demand; for a piece of a longer channel `ChannelLength.RowOverflows` shows it can fail, and what the kernel then overwrites is not modelled.
- BitWriter.Writer.AddBits: reads the shift of an empty register by 32 at its mathematical value, which the C++ language leaves undefined.
- BitWriter.Writer.SpillPartial: the same shift of an empty register, at its mathematical value.
- CoderKernel.DecodeChannel: the staging copy of rows into shared memory and the prefix-sum variant of the decoder are the same loop after a window copy.
- ConnectorRuns.StepKeeps: steps are sequentially consistent; memory orders, real threads, mutex and condition-variable internals, the fd system calls, connection creation, and the clearing of queues by `close()` are not modelled, and the tile counter is unbounded.
- ConnectorProgress.EventuallyAnnounced: progress of the connector's own steps; that a thread is eventually scheduled, and that `close()` returns, are not decided by the code and not claimed.
- LintGaps.ReportedIff: one scope and scalar aliases. Tests are arbitrary, so both branches of every test count as runs, and a run goes on where Python would raise for an unbound name or a failing operator. A chain `a and b and c` is nested pairs, so that the last operand may run after the first one was falsy. That a reported line is performed assumes torch is bound at the start; that nothing is missed does not. Functions, classes, comprehensions, for loops, try, match, return, tuples and lists, global and nonlocal, and `getattr` are not modelled.
- LintVisitor.DirectDeviceLines: the module history that the first pass hands to the second is read in function bodies only and is not kept.
- LintVisitor.DeviceVisitor.Statement: an import statement binds one name; several names in one statement would repeat the case.
- Transfer.MultiLayerBlockTransfer: addresses and sizes are unbounded; device, stream and tensor checks, the USM pointer kind check, and the choice between one wide store and byte stores are not modelled.
- TransferKernel.Submit: lanes run one after the other in an arbitrary order; unit copies of different lanes are not interleaved.
- PackedBits.ClearLowest: a byte is its eight bits; the compiler builtins for trailing and leading zeros and population count are modelled by what they count.
- Bitmaps.Bitmap.GetIndices: `batched_set`, `get_indices_set` and `to_string` would only repeat `set` and `get_indices`.
- SlotText.ParseMixed: ASCII digits and the white space of Latin-1 only; Python's limit on very long digit strings and the error texts are not modelled.
- RangeMatcher.Match: positions are unbounded instead of `int`; the constructor's refusal of empty patterns is the precondition, and the single-pattern matcher is a plain loop.
- TTL lock, RoPE kernels, Python cache keys, storage back ends, adapters, servers, command line and metrics are not modelled.
