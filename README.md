# Stages settings: defaults, load and repair of the calibration record

A Dafny model of the settings storage of the Stages firmware
(`stages/settings.cc`). The settings object owns two regions that the
storage engine persists in flash:

- the persistent region: one `ChannelCalibrationData` record per channel
  (`dac_offset`, `dac_scale`, `adc_offset`, `adc_scale`);
- the state region: one configuration byte per channel (bits 0-1 the
  segment type, bit 2 the loop flag) and the `color_blind` byte.

`Settings::Init` fills every channel with the nominal calibration (32768,
-32263, 0, -1) and clears the configuration bytes, overwrites the
calibration with the one active per-unit table, clears `color_blind`, asks
the storage engine to load both regions, and only if that succeeded runs a
repair pass over every channel: `adc_offset` further than 0.1 from 0 is
reset to 0; `dac_offset`, `dac_scale` and `adc_scale` whose ratio to their
nominal is off by more than 10% are reset to the nominal; each configuration
byte keeps only its type bits and loop bit. It returns the storage engine's
result.

The model is one module, `Settings` (`settings.dfy`):

- the two repair macros, the type clamp and the byte repair are pure
  functions; `SanitizeChannel` composes the four coefficient repairs of one
  channel, and `SanitizeCalibration` / `RepairConfigurations` give the
  repair pass over whole regions;
- the settings object is a class with the two regions as arrays (fixed at
  six channels) and `colorBlind` as a field. `Init` runs `SetDefaults`,
  `LoadFromStorage` and, on success, `Sanitize`, whose loop rewrites channel
  `i` in place;
- the storage engine is represented by what it finds in flash: a parameter
  `flash: Option<StoredRecord>`. `None` means no valid record (the load
  fails and changes nothing), `Some(r)` means the load succeeds and
  overwrites both regions, `color_blind` included, with arbitrary contents
  of the regions' sizes.

## Model

| member | source | states |
|---|---|---|
| `Settings.FixOutlierAbsolute` | stages/settings.cc:40 | the result is always within 0.1 of the expected value; the value is kept exactly when it already was, and otherwise replaced by the expected value |
| `Settings.FixOutlier` | stages/settings.cc:39 | for a nonzero expected value, the result's ratio to it is always within 10% of 1; the value is kept exactly when its ratio already was, and otherwise replaced by the expected value |
| `Settings.SanitizeChannel` | stages/settings.cc:185-190 | after the four repairs every coefficient of the channel is inside its band; the record is unchanged exactly when it was already inside all bands; each field is either its old value or its nominal |
| `Settings.SanitizeChannelIdempotent` | stages/settings.cc:185-190 | repairing an already repaired channel changes nothing |
| `Settings.SanitizeChannelExamples` | stages/settings.cc:186-188 | an `adc_offset` of 5 becomes 0; a `dac_offset` 20% above 32768 becomes 32768; one 5% above is kept |
| `Settings.Constrain` | stages/settings.cc:194 | the clamp lands in [lo, hi] and leaves a value already in range untouched |
| `Settings.TypeBitsConstrainNoOp` | stages/settings.cc:192-194 | clamping the two type bits to [0, 3] never changes them |
| `Settings.RepairConfiguration` | stages/settings.cc:192-195 | the repaired byte is the loaded byte ANDed with 7: below 8, with the type bits and the loop bit of the loaded byte; it is unchanged exactly when the loaded byte was below 8 |
| `Settings.RepairConfigurationIdempotent` | stages/settings.cc:192-195 | repairing a repaired byte changes nothing |
| `Settings.SanitizeCalibration` | stages/settings.cc:184-190 | the repaired calibration region has one record per loaded record, and record k is the repair of loaded record k alone |
| `Settings.RepairConfigurations` | stages/settings.cc:184-196 | the repaired configuration region has one byte per loaded byte, and byte k is the repair of loaded byte k alone |
| `Settings.SanitizeCalibrationIdempotent` | stages/settings.cc:184-196 | a second repair pass over a repaired calibration region changes nothing, so saving and reloading a repaired record is stable |
| `Settings.SanitizeCalibrationFixed` | stages/settings.cc:184-190 | the repair pass leaves a calibration region unchanged if and only if every record in it is inside all tolerance bands |
| `Settings.RepairConfigurationsIdempotent` | stages/settings.cc:184-196 | a second repair pass over repaired configuration bytes changes nothing |
| `Settings.UnitTableInBand` | stages/settings.cc:151-177 | the active per-unit table has six records, every one inside all tolerance bands, so the repair pass would leave it unchanged |
| `Settings.Settings.SetDefaults` | stages/settings.cc:44-178 | afterwards the calibration region holds exactly the per-unit table, every configuration byte is 0 and `color_blind` is 0 |
| `Settings.Settings.LoadFromStorage` | stages/settings.cc:180 | reports success exactly when flash holds a valid record; on success both regions and `color_blind` hold the stored record; on failure nothing changes |
| `Settings.Settings.Sanitize` | stages/settings.cc:183-197 | each calibration record and configuration byte becomes the repair of its loaded value; the loop's frame is the two regions, so `color_blind` is untouched, and iteration i changes only index i |
| `Settings.Settings.Init` | stages/settings.cc:43-200 | returns the storage engine's result; on failure calibration is exactly the per-unit table and every configuration byte and `color_blind` is 0; on success both regions are the repaired stored record and `color_blind` is the stored one; in both cases every record is inside its bands and every configuration byte is below 8 |

## Left out

- `SavePersistentData` and `SaveState` (stages/settings.cc:202-208): one-line delegations to the storage engine with no logic of their own and no result.
- The storage engine (`stmlib/system/storage.h` is not part of this model): its chunk search, CRC check, wear-levelling and flash layout. Only its outcome is modelled, as the `flash` parameter; that a failed load leaves both regions as they were is taken from the engine's described contract, not from its code.
- `Settings.Settings.LoadFromStorage`: requires a stored record to hold exactly one entry per channel, because the engine copies fixed-size raw regions; the byte layout and `sizeof` compatibility of those regions are not modelled.
- The channel count: `kNumChannels` is declared in `stages/settings.h`, which is not part of this model; it is fixed at 6, the number of channels the active table covers.
- Fields of the persistent and state structures that `Init` does not touch (`stages/settings.h` is not part of this model).
- The `#if 0` calibration tables (stages/settings.cc:61-149): dead code; only the `#if 1` table is modelled.
- IEEE-754 single precision: coefficients are reals, so float rounding of the literals (including the double literal at stages/settings.cc:160) and of `destination / expected_value` is not modelled. In the firmware `fabsf(NaN) > 0.1f` is false, so a NaN loaded from flash survives the repair pass; the model assumes loaded coefficients are ordinary numbers and the band guarantees hold only under that assumption.
- `Settings.Constrain`: `CONSTRAIN` is defined in `stmlib/stmlib.h`, which is not part of this model; it is modelled as the clamp into [lo, hi] that its use at stages/settings.cc:194 describes.
