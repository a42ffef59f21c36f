/** Five shorts of one size on the engine's own curve: every quotient of the coefficients and of each Newton iteration
    is written down, and the lemmas check them. */
module DecayTrace {
  import opened Arith
  import opened Newton
  import opened IntegerCurve

  const SIZE: nat := 2_000_000_000_000_000_000_000_000_000
  const FIRST_DEPOSIT: nat := 2_000_000_000_000_000_000_000_000
  const LATER_DEPOSIT: nat := 100_000_000_000_000_000_000_000

  // What each short leaves of the stable side, and what it meets there.
  const LEFT_1: nat := 2_411_779_338_947_075_614
  const LEFT_2: nat := 1_781_017_818_509_829_716
  const LEFT_3: nat := 2_272_654_463_826_536_573
  const LEFT_4: nat := 2_552_293_422_807_735_663
  const LEFT_5: nat := 2_743_493_096_202_564_732
  const STABLE_1: nat := FIRST_DEPOSIT
  const STABLE_2: nat := LEFT_1 + LATER_DEPOSIT
  const STABLE_3: nat := LEFT_2 + LATER_DEPOSIT
  const STABLE_4: nat := LEFT_3 + LATER_DEPOSIT
  const STABLE_5: nat := LEFT_4 + LATER_DEPOSIT

  const FIRST_CUBIC := Cubic(2_006_006_002_000_000_000_000_000_000_000_000,
                             -12_821_608_800_000_000_000_000_000_000_000_000_000,
                             8_027_299_280_000_000_000_000_000_000_000_000_000_000_000,
                             -19_360_000_000_000_000_000_000_000_000_000_000_000_000_000)

  lemma FirstCubic()
    ensures ShortCubic(SIZE, PRICE_DECIMALS, STABLE_1, 0) == Ok(FIRST_CUBIC)
  {
    var w := Chain(4_008_004_000_000_000_000_000_000_000_000_000_000, 4_000_000_000_000_000_000_000_000_000_000,
                   2_006_006_002_000_000_000_000_000_000_000_000, 4_004_000_000_000_000_000_000_000_000_000_000,
                   12_825_612_800_000_000_000_000_000_000_000_000_000, 4_400_000_000_000_000_000_000_000_000_000,
                   4_840_000_000_000_000_000_000_000_000_000, 3_996_000_000_000_000_000_000_000_000_000_000,
                   8_027_299_280_000_000_000_000_000_000_000_000_000_000_000,
                   16_000_000_000_000_000_000_000_000_000_000_000_000_000_000,
                   17_600_000_000_000_000_000_000_000_000_000_000_000_000_000,
                   19_360_000_000_000_000_000_000_000_000_000_000_000_000_000);
    ChainIsCubic(SIZE, STABLE_1, 0, w);
  }

  lemma FirstShort()
    ensures ShortReturn(SIZE, PRICE_DECIMALS, 0, STABLE_1, 0) == Ok(STABLE_1 - LEFT_1)
  {
    hide SolveSigned, ShortCubic;
    FirstCubic();
    var q := FIRST_CUBIC;
    Stops(q, Iteration(2_411_779_338_947_075_476, 5_816_679_579_771_992_373, 14_028_547_631_769_448_538,
                       28_141_350_748_672_399_647_458_125_076_000_000,
                       -74_579_190_086_784_879_403_189_682_400_000_000_000,
                       19_360_074_551_048_734_926_600_457_280_000_000_000_000_000,
                       35_004_882_446_200_363_475_208_668_238_000_000,
                       -61_845_782_391_804_011_314_691_577_600_000_000_000, -138), 253);
    GoesOn(q, Iteration(2_411_770_051_757_681_569, 5_816_634_782_555_250_034, 14_028_385_570_578_806_253,
                        28_141_025_652_951_279_957_513_130_506_000_000,
                        -74_578_615_714_396_480_322_134_699_200_000_000_000,
                        19_359_999_999_999_999_993_302_970_320_000_000_000_000_000,
                        35_004_612_855_743_389_394_444_112_204_000_000,
                        -61_845_544_238_385_490_945_376_414_400_000_000_000, -9_287_189_393_907), 254, LEFT_1);
    GoesOn(q, Iteration(0, 0, 0, 0, 0, 0, 0, 0, -2_411_770_051_757_681_569), 255, LEFT_1);
  }

  const SECOND_CUBIC := Cubic(800_081_416_032_569_650_083_204_703_765_280_350,
                              -12_801_280_052_871_836_734_228_399_647_968_544_685,
                              88_206_664_604_432_868_233_990_616_433_496_755_838,
                              -121_011_673_434_298_231_195_411_082_290_197_974_635)

  lemma SecondCubic()
    ensures ShortCubic(SIZE, PRICE_DECIMALS, STABLE_2, SIZE) == Ok(SECOND_CUBIC)
  {
    var w := Chain(4_000_400_019_647_599_717_472_771_450_894_793_039, 10_000_482_361_684_468_994_894_793_039,
                   800_081_416_032_569_650_083_204_703_765_280_350, 10_000_482_361_684_468_994_894_793_039,
                   12_801_280_062_872_319_095_912_868_642_863_337_724, 11_000_530_597_852_915_894_384_272_342,
                   12_100_583_657_638_207_483_822_699_576, 9_999_482_339_331_667_365_286_011_935,
                   88_206_664_604_432_868_233_990_616_433_496_755_838,
                   100_009_647_466_362_174_541_662_051_479_502_458_377,
                   110_010_612_212_998_391_995_828_256_627_452_704_214,
                   121_011_673_434_298_231_195_411_082_290_197_974_635);
    ChainIsCubic(SIZE, STABLE_2, SIZE, w);
  }

  lemma SecondShort()
    ensures ShortReturn(SIZE, PRICE_DECIMALS, 0, STABLE_2, SIZE) == Ok(STABLE_2 - LEFT_2)
  {
    hide SolveSigned, ShortCubic;
    SecondCubic();
    var q := SECOND_CUBIC;
    Stops(q, Iteration(1_781_017_816_051_330_126, 3_172_024_461_092_249_593, 5_649_432_078_155_915_759,
                       4_520_005_616_870_807_775_191_804_888_205_149_466,
                       -40_605_973_461_001_752_293_727_285_064_135_031_735,
                       157_097_641_154_959_190_108_903_023_929_872_237_150,
                       7_613_633_467_561_907_063_238_012_691_734_168_368,
                       -45_598_615_684_854_509_012_758_469_655_238_957_116, -2_458_499_590), 251);
    GoesOn(q, Iteration(1_780_897_480_795_595_481, 3_171_595_837_104_098_375, 5_648_287_036_400_486_609,
                        4_519_089_490_241_707_601_562_823_502_329_792_607,
                        -40_600_486_525_292_049_732_246_340_017_967_785_112,
                        157_087_026_783_416_515_620_455_381_684_892_345_090,
                        7_612_604_665_299_750_401_679_384_569_186_284_822,
                        -45_595_534_794_236_722_728_078_122_110_843_962_261, -120_335_255_734_645), 252, LEFT_2);
    GoesOn(q, Iteration(1_754_340_350_921_181_899, 3_077_710_066_870_255_651, 5_399_350_958_746_818_507,
                        4_319_920_360_730_967_107_978_365_626_433_824_027,
                        -39_398_628_487_549_050_430_888_607_036_335_296_346,
                        154_744_510_935_727_752_413_890_533_308_460_702_755,
                        7_387_255_885_317_746_308_408_807_777_058_858_844,
                        -44_915_604_280_391_008_060_408_813_169_622_977_918, -26_557_129_874_413_582), 253, LEFT_2);
    GoesOn(q, Iteration(1_371_910_773_148_276_729, 1_882_139_169_480_302_412, 2_582_127_003_174_377_129,
                        2_065_911_829_075_691_121_252_118_128_442_990_012,
                        -24_093_790_606_996_960_540_546_144_679_947_512_541,
                        121_011_673_434_298_231_189_046_596_067_849_172_616,
                        4_517_593_715_664_494_856_177_127_066_483_905_446,
                        -35_124_428_029_246_028_674_475_724_653_541_766_914, -382_429_577_772_905_170), 254, LEFT_2);
    GoesOn(q, Iteration(0, 0, 0, 0, 0, 0, 0, 0, -1_371_910_773_148_276_729), 255, LEFT_2);
  }

  const THIRD_CUBIC := Cubic(800_091_508_339_088_320_893_103_637_286_030_106,
                             -12_801_280_049_797_864_831_558_490_473_575_531_039,
                             78_205_945_686_766_010_000_655_294_812_162_916_583,
                             -121_008_620_356_533_298_424_211_920_217_135_260_824)

  lemma ThirdCubic()
    ensures ShortCubic(SIZE, PRICE_DECIMALS, STABLE_3, 2 * SIZE) == Ok(THIRD_CUBIC)
  {
    var w := Chain(4_000_400_017_124_427_480_775_045_299_792_712_740, 10_000_356_206_735_726_435_792_712_740,
                   800_091_508_339_088_320_893_103_637_286_030_106, 5_000_303_106_921_654_485_761_149_729,
                   12_801_280_054_798_167_938_480_144_959_336_680_768, 11_000_391_827_409_299_079_371_984_014,
                   12_100_431_010_150_228_987_309_182_415, 4_999_803_092_706_489_414_301_976_291,
                   78_205_945_686_766_010_000_655_294_812_162_916_583,
                   100_007_124_261_597_767_292_737_124_146_392_777_541,
                   110_007_836_687_757_544_022_010_836_561_032_055_295,
                   121_008_620_356_533_298_424_211_920_217_135_260_824);
    ChainIsCubic(SIZE, STABLE_3, 2 * SIZE, w);
  }

  lemma ThirdShort()
    ensures ShortReturn(SIZE, PRICE_DECIMALS, 0, STABLE_3, 2 * SIZE) == Ok(STABLE_3 - LEFT_3)
  {
    hide SolveSigned, ShortCubic;
    ThirdCubic();
    var q := THIRD_CUBIC;
    Stops(q, Iteration(2_272_654_463_826_235_872, 5_164_958_311_949_315_653, 11_738_165_563_128_032_283,
                       9_391_606_590_537_051_397_544_489_535_243_502_028,
                       -66_118_077_796_794_431_361_522_373_024_684_948_317,
                       177_735_091_562_780_930_394_781_641_812_294_947_135,
                       12_397_317_858_948_118_265_575_641_446_274_362_708,
                       -58_185_772_495_725_713_083_946_177_786_310_553_357, -300_701), 250);
    GoesOn(q, Iteration(2_272_653_311_902_855_682, 5_164_953_076_103_018_631, 11_738_147_714_228_367_500,
                        9_391_592_309_783_996_408_266_109_650_495_655_297,
                        -66_118_010_771_259_685_485_768_035_107_080_837_043,
                        177_735_001_475_523_623_939_728_452_258_103_632_088,
                        12_397_305_291_479_634_617_688_985_983_581_297_165,
                        -58_185_743_003_538_141_640_010_211_759_147_889_327, -1_151_923_380_190), 251, LEFT_3);
    GoesOn(q, Iteration(2_270_399_274_905_726_255, 5_154_712_867_492_447_540, 11_703_256_356_702_069_876,
                        9_363_676_030_912_782_540_785_859_443_036_919_907,
                        -65_986_922_993_067_413_465_735_374_540_790_206_342,
                        177_558_722_380_550_158_818_972_502_164_976_719_895,
                        12_372_725_979_620_818_385_440_739_340_448_019_507,
                        -58_128_033_885_852_423_198_060_325_361_250_958_490, -2_254_036_997_129_427), 252, LEFT_3);
    GoesOn(q, Iteration(2_171_707_027_846_341_180, 4_716_311_414_797_188_905, 10_242_446_645_026_975_492,
                        8_194_894_585_302_267_556_772_721_763_645_141_314,
                        -60_374_823_222_877_196_723_405_201_365_542_664_894,
                        169_840_401_867_318_997_178_728_833_636_177_253_996,
                        11_320_442_140_985_827_510_844_626_636_944_245_047,
                        -55_601_259_699_150_366_894_296_257_611_996_505_278, -98_692_247_059_385_075), 253, LEFT_3);
    GoesOn(q, Iteration(1_547_307_168_194_122_943, 2_394_159_472_744_915_866, 3_704_500_113_978_070_237,
                        2_963_939_083_835_038_818_248_382_275_626_659_467,
                        -30_648_305_894_484_066_386_055_144_095_283_960_405,
                        121_008_620_356_533_298_349_586_796_373_707_532_170,
                        5_746_639_991_258_388_450_373_373_312_683_720_622,
                        -39_615_024_766_225_310_724_799_025_994_482_934_426, -624_399_859_652_218_237), 254, LEFT_3);
    GoesOn(q, Iteration(0, 0, 0, 0, 0, 0, 0, 0, -1_547_307_168_194_122_943), 255, LEFT_3);
  }

  const FOURTH_CUBIC := Cubic(800_083_642_041_107_832_992_242_561_840_081_163,
                              -12_801_280_057_757_835_690_177_000_354_355_075_713,
                              74_873_368_725_613_946_766_216_399_453_362_289_989,
                              -121_011_000_022_586_575_189_044_341_995_913_048_729)

  lemma FourthCubic()
    ensures ShortCubic(SIZE, PRICE_DECIMALS, STABLE_4, 3 * SIZE) == Ok(FOURTH_CUBIC)
  {
    var w := Chain(4_000_400_019_091_072_391_363_869_911_265_282_432, 10_000_454_536_057_723_619_265_282_432,
                   800_083_642_041_107_832_992_242_561_840_081_163, 3_333_595_962_187_383_361_693_828_069,
                   12_801_280_061_091_431_652_364_383_716_048_903_782, 11_000_499_989_663_495_981_191_810_675,
                   12_100_549_988_629_845_579_310_991_742, 3_333_262_611_682_956_895_877_626_292,
                   74_873_368_725_613_946_766_216_399_453_362_289_989,
                   100_009_090_927_757_500_156_234_993_385_052_106_389,
                   110_010_000_020_533_250_171_858_492_723_557_317_027,
                   121_011_000_022_586_575_189_044_341_995_913_048_729);
    ChainIsCubic(SIZE, STABLE_4, 3 * SIZE, w);
  }

  lemma FourthShort()
    ensures ShortReturn(SIZE, PRICE_DECIMALS, 0, STABLE_4, 3 * SIZE) == Ok(STABLE_4 - LEFT_4)
  {
    hide SolveSigned, ShortCubic;
    FourthCubic();
    var q := FOURTH_CUBIC;
    Stops(q, Iteration(2_552_293_422_724_961_464, 6_514_201_715_685_098_836, 16_626_154_193_246_737_195,
                       13_302_314_000_069_886_469_471_724_427_415_561_610,
                       -83_390_120_515_211_534_374_519_130_363_114_961_505,
                       191_098_806_535_645_306_248_805_189_299_795_275_210,
                       15_635_718_701_027_301_354_129_011_155_704_354_131,
                       -65_345_245_787_751_077_665_483_426_279_068_594_781, -82_774_199), 250);
    GoesOn(q, Iteration(2_552_275_758_076_211_830, 6_514_111_545_263_501_776, 16_625_808_982_380_407_666,
                        13_302_037_802_502_681_373_866_619_627_766_408_636,
                        -83_388_966_218_391_744_313_887_613_384_051_315_079,
                        191_097_483_923_886_066_446_960_416_463_436_958_308,
                        15_635_502_269_389_354_080_333_238_039_571_449_370,
                        -65_344_793_527_519_545_692_260_374_176_731_143_374, -17_664_648_749_634), 251, LEFT_4);
    GoesOn(q, Iteration(2_544_123_317_630_561_045, 6_472_563_455_311_532_604, 16_466_999_611_501_503_973,
                        13_174_977_022_659_631_057_108_236_639_405_290_078,
                        -82_857_097_483_051_672_639_060_923_929_085_691_295,
                        190_487_083_244_385_246_734_621_338_256_564_839_544,
                        15_535_776_428_003_484_923_888_108_107_555_671_980,
                        -65_136_070_180_921_610_098_783_071_376_736_632_394, -8_152_440_445_650_785), 252, LEFT_4);
    GoesOn(q, Iteration(2_372_189_787_563_337_532, 5_627_284_388_219_792_449, 13_348_986_557_449_595_257,
                        10_680_305_782_442_062_314_665_814_924_025_345_002,
                        -72_036_443_418_250_031_758_231_695_206_016_393_519,
                        177_613_840_651_365_588_573_993_565_371_238_134_568,
                        13_506_894_564_383_876_717_732_437_027_914_783_815,
                        -60_734_131_641_502_698_915_280_186_148_524_639_201, -171_933_530_067_223_513), 253, LEFT_4);
    GoesOn(q, Iteration(1_616_208_834_760_083_235, 2_612_130_997_556_546_034, 4_221_749_195_801_559_093,
                        3_377_752_472_361_029_469_281_801_540_021_557_792,
                        -33_438_620_447_271_694_572_212_645_427_882_539_519,
                        121_011_000_022_586_575_153_477_153_571_380_453_689,
                        6_269_769_846_040_540_489_874_370_857_229_996_940,
                        -41_379_083_851_172_565_267_252_235_188_635_991_784, -755_980_952_803_254_297), 254, LEFT_4);
    GoesOn(q, Iteration(0, 0, 0, 0, 0, 0, 0, 0, -1_616_208_834_760_083_235), 255, LEFT_4);
  }

  const FIFTH_CUBIC := Cubic(800_079_167_806_016_349_707_656_206_075_150_094,
                             -12_801_280_062_170_767_928_268_839_641_040_695_780,
                             73_207_084_349_855_756_083_007_263_362_687_929_941,
                             -121_012_353_573_105_481_139_999_086_019_020_546_580)

  lemma FifthCubic()
    ensures ShortCubic(SIZE, PRICE_DECIMALS, STABLE_5, 4 * SIZE) == Ok(FIFTH_CUBIC)
  {
    var w := Chain(4_000_400_020_209_684_156_429_705_915_240_226_923, 10_000_510_465_198_763_263_240_226_923,
                   800_079_167_806_016_349_707_656_206_075_150_094, 2_500_221_372_306_219_287_728_030_373,
                   12_801_280_064_670_989_300_575_058_928_768_726_153, 11_000_561_511_718_639_589_564_249_615,
                   12_100_617_662_890_503_548_520_674_576, 2_499_971_356_288_810_029_280_100_659,
                   73_207_084_349_855_756_083_007_263_362_687_929_941,
                   100_010_209_564_549_984_413_222_385_139_686_402_133,
                   110_011_230_521_004_982_854_544_623_653_655_042_346,
                   121_012_353_573_105_481_139_999_086_019_020_546_580);
    ChainIsCubic(SIZE, STABLE_5, 4 * SIZE, w);
  }

  lemma FifthShort()
    ensures ShortReturn(SIZE, PRICE_DECIMALS, 0, STABLE_5, 4 * SIZE) == Ok(STABLE_5 - LEFT_5)
  {
    hide SolveSigned, ShortCubic;
    FifthCubic();
    var q := FIFTH_CUBIC;
    Stops(q, Iteration(2_743_493_093_865_903_743, 7_526_754_356_089_908_525, 20_649_598_595_157_771_294,
                       16_521_313_659_542_113_973_077_444_594_190_983_286,
                       -96_352_090_471_470_722_528_464_266_349_816_490_510,
                       200_843_130_335_887_950_712_679_982_406_737_297_749,
                       18_065_998_084_502_167_383_089_961_275_264_007_552,
                       -70_240_446_886_417_577_437_472_843_313_184_183_919, -2_336_660_989), 250);
    GoesOn(q, Iteration(2_743_404_178_735_657_492, 7_526_266_487_904_267_358, 20_647_590_933_194_707_862,
                        16_519_707_371_029_470_389_267_808_155_427_070_662,
                        -96_345_845_134_192_906_830_421_423_776_068_495_588,
                        200_836_621_118_448_035_004_918_377_195_333_263_493,
                        18_064_827_084_986_266_935_124_770_636_467_742_917,
                        -70_238_170_431_449_484_137_614_580_376_534_711_085, -88_915_130_246_251), 251, LEFT_5);
    GoesOn(q, Iteration(2_726_097_673_595_777_533, 7_431_608_525_984_310_422, 20_259_290_713_760_374_069,
                        16_209_036_454_605_555_071_505_274_095_242_839_989,
                        -95_134_102_053_541_242_321_654_791_983_754_341_907,
                        199_569_662_336_871_630_655_621_666_760_105_531_424,
                        17_837_625_494_788_868_742_220_043_658_470_654_658,
                        -69_795_079_593_063_481_665_117_802_809_741_452_612, -17_306_505_139_879_959), 252, LEFT_5);
    GoesOn(q, Iteration(2_490_663_898_805_410_123, 6_203_406_656_812_566_237, 15_450_601_009_732_220_997,
                        12_361_703_997_969_351_294_993_461_426_791_066_657,
                        -79_411_545_953_392_123_543_755_477_333_502_199_919,
                        182_334_242_126_988_259_994_128_781_668_297_785_539,
                        14_889_649_306_634_700_177_922_573_242_506_159_948,
                        -63_767_372_218_692_415_478_611_716_752_805_602_880, -235_433_774_790_367_410), 253, LEFT_5);
    GoesOn(q, Iteration(1_653_014_249_205_567_744, 2_732_456_108_076_646_820, 4_516_788_881_979_486_015,
                        3_613_788_689_849_614_169_022_580_399_570_881_187,
                        -34_978_935_897_078_311_973_343_488_401_893_971_324,
                        121_012_353_573_105_481_074_496_987_612_416_882_997,
                        6_558_543_627_049_289_573_601_380_234_181_751_077,
                        -42_321_396_701_678_831_038_786_452_670_196_189_007, -837_649_649_599_842_379), 254, LEFT_5);
    GoesOn(q, Iteration(0, 0, 0, 0, 0, 0, 0, 0, -1_653_014_249_205_567_744), 255, LEFT_5);
  }
}
