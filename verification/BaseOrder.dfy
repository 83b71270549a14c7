/** The base point of P-256 has order N: a chain of doublings and additions, each given by the
    slope of its line, that comes to the base point's own mirror image at N - 1. */
module BaseOrder {
  import opened Modular
  import opened EllipticCurve
  import opened Multiples
  import opened Nist

  /** k times g is q. */
  ghost predicate Multiple(c: Curve, g: Point, k: nat, q: Point)
    requires c.p > 1
  {
    Scalar(c, k, g) == q
  }

  /** A prime curve with an associative sum, and a point on it. */
  ghost predicate Sound(c: Curve, g: Point) { ValidCurve(c) && Associative(c) && On(c, g) }

  /** The line of slope l through q, met again at the mirror image of r; x is the abscissa of
      the other point on it. */
  predicate Meets(c: Curve, q: Point, x: int, l: int, r: Point)
    requires c.p > 1
  {
    && q.At? && r.At? && 0 <= r.x < c.p && 0 <= r.y < c.p
    && (l * l - q.x - x - r.x) % c.p == 0 && (l * (q.x - r.x) - q.y - r.y) % c.p == 0
  }

  /** The tangent at q. */
  predicate Touches(c: Curve, q: Point, l: int, r: Point)
    requires c.p > 1
  {
    q.At? && Meets(c, q, q.x, l, r) && q.y != 0 && (l * (2 * q.y) - 3 * q.x * q.x - c.a) % c.p == 0
  }

  /** The chord through q and s. */
  predicate Cuts(c: Curve, q: Point, s: Point, l: int, r: Point)
    requires c.p > 1
  {
    q.At? && s.At? && Meets(c, q, s.x, l, r) && q.x != s.x && (l * (s.x - q.x) - (s.y - q.y)) % c.p == 0
  }

  /** A third point is told by its slope modulo p. */
  lemma ThirdIs(c: Curve, m: int, l: int, q: Point, x: int, r: Point)
    requires c.p > 1 && Cong(c.p, m, l) && Meets(c, q, x, l, r)
    ensures Third(c, m, q, x) == r
  {
    hide Red, Meets;
    MeetsSays(c, q, x, l, r);
    var p, t := c.p, Third(c, m, q, x);
    Times(p, m, l, m, l);
    Plus(p, m * m, l * l, q.x + x, q.x + x);
    Residue(p, m * m - q.x - x);
    assert m * m - (q.x + x) == m * m - q.x - x && l * l - (q.x + x) == l * l - q.x - x;
    Unique(p, t.x, r.x);
    Times(p, m, l, q.x - r.x, q.x - r.x);
    Plus(p, m * (q.x - r.x), l * (q.x - r.x), q.y, q.y);
    Residue(p, m * (q.x - t.x) - q.y);
    Unique(p, t.y, r.y);
  }

  lemma MeetsSays(c: Curve, q: Point, x: int, l: int, r: Point)
    requires c.p > 1 && Meets(c, q, x, l, r)
    ensures q.At? && r.At? && 0 <= r.x < c.p && 0 <= r.y < c.p
    ensures Cong(c.p, l * l - q.x - x, r.x) && Cong(c.p, l * (q.x - r.x) - q.y, r.y)
  {
    ZeroIsCong(c.p, l * l - q.x - x, r.x);
    ZeroIsCong(c.p, l * (q.x - r.x) - q.y, r.y);
  }

  lemma Doubled(c: Curve, q: Point, l: int, r: Point)
    requires ValidCurve(c) && On(c, q) && Touches(c, q, l, r)
    ensures Sum(c, q, q) == r
  {
    hide Red, IsPrime, On, Meets, Inverse, Invertible;
    TangentSlope(c, q);
    var m := Tangent(c, q);
    ZeroIsCong(c.p, l * (2 * q.y), 3 * q.x * q.x + c.a);
    assert m * (2 * q.y) == 2 * q.y * m && l * (2 * q.y) == 2 * q.y * l;
    Cancel(c.p, 2 * q.y, m, l);
    ThirdIs(c, m, l, q, q.x, r);
  }

  lemma Added(c: Curve, q: Point, s: Point, l: int, r: Point)
    requires ValidCurve(c) && On(c, q) && On(c, s) && Cuts(c, q, s, l, r)
    ensures Sum(c, q, s) == r
  {
    hide Red, IsPrime, On, Meets, Inverse, Invertible;
    ChordSlope(c, q, s);
    var m := Chord(c, q, s);
    ZeroIsCong(c.p, l * (s.x - q.x), s.y - q.y);
    assert m * (s.x - q.x) == (s.x - q.x) * m && l * (s.x - q.x) == (s.x - q.x) * l;
    Cancel(c.p, s.x - q.x, m, l);
    ThirdIs(c, m, l, q, s.x, r);
  }

  lemma Once(c: Curve, g: Point)
    requires c.p > 1
    ensures Multiple(c, g, 1, g)
  {
    assert Scalar(c, 0, g) == Infinity;
  }

  /** A tangent doubles a known multiple. */
  lemma Doubles(c: Curve, g: Point, k: nat, q: Point, l: int, r: Point)
    requires Sound(c, g) && Multiple(c, g, k, q) && Touches(c, q, l, r)
    ensures Multiple(c, g, 2 * k, r)
  {
    hide IsPrime, Associative, On, Sum, Touches, Scalar;
    ScalarOn(c, k, g);
    ScalarPlus(c, k, k, g);
    Doubled(c, q, l, r);
  }

  /** A chord adds two known multiples. */
  lemma Adds(c: Curve, g: Point, k: nat, q: Point, j: nat, s: Point, l: int, r: Point)
    requires Sound(c, g) && Multiple(c, g, k, q) && Multiple(c, g, j, s) && Cuts(c, q, s, l, r)
    ensures Multiple(c, g, k + j, r)
  {
    hide IsPrime, Associative, On, Sum, Cuts, Scalar;
    ScalarOn(c, k, g);
    ScalarOn(c, j, g);
    ScalarPlus(c, k, j, g);
    Added(c, q, s, l, r);
  }

  const TIMES_2 := At(0x7CF27B188D034F7E8A52380304B51AC3C08969E277F21B35A60B48FC47669978, 0x7775510DB8ED040293D9AC69F7430DBBA7DADE63CE982299E04B79D227873D1)
  const TIMES_3 := At(0x5ECBE4D1A6330A44C8F7EF951D4BF165E6C6B721EFADA985FB41661BC6E7FD6C, 0x8734640C4998FF7E374B06CE1A64A2ECD82AB036384FB83D9A79B127A27D5032)
  const TIMES_5 := At(0x51590B7A515140D2D784C85608668FDFEF8C82FD1F5BE52421554A0DC3D033ED, 0xE0C17DA8904A727D8AE1BF36BF8A79260D012F00D4D80888D1D0BB44FDA16DA4)
  const TIMES_7 := At(0x8E533B6FA0BF7B4625BB30667C01FB607EF9F8B8A80FEF5B300628703187B2A3, 0x73EB1DBDE03318366D069F83A6F5900053C73633CB041B21C55E1A86C1F400B4)
  const TIMES_9 := At(0xEA68D7B6FEDF0B71878938D51D71F8729E0ACB8C2C6DF8B3D79E8A4B90949EE0, 0x2A2744C972C9FCE787014A964A8EA0C84D714FEAA4DE823FE85A224A4DD048FA)
  const TIMES_B := At(0x3ED113B7883B4C590638379DB0C21CDA16742ED0255048BF433391D374BC21D1, 0x9099209ACCC4C8A224C843AFA4F4C68A090D04DA5E9889DAE2F8EEFCE82A3740)
  const TIMES_D := At(0x177C837AE0AC495A61805DF2D85EE2FC792E284B65EAD58A98E15D9D46072C01, 0x63BB58CD4EBEA558A24091ADB40F4E7226EE14C3A1FB4DF39C43BBE2EFC7BFD8)
  const TIMES_F := At(0xF0454DC6971ABAE7ADFB378999888265AE03AF92DE3A0EF163668C63E59B9D5F, 0xB5B93EE3592E2D1F4E6594E51F9643E62A3B21CE75B5FA3F47E59CDE0D034F36)
  const TIMES_FF := At(0xF44B39759A2E6DB723A6F90249972DFD08E95380F1FCA470EACD1D03E5EDF214, 0xBEFAFCCF223CA065F0A0DB4EEA93FF06A2116FCA81F7A4A9436A8D917A02DEDE)
  const TIMES_FFFF := At(0xF249104D0E6F8F29E6016277780CDA84DC84B83BC3D899DFB736CA0831FBE8CF, 0xB57E12FCDB031F59CAB81B1C6B1E1C07E4512E52CE832F1A0CEDEFFF8B4340E9)
  const TIMES_FFFFFFFF := At(0x618466BCB739585C20C44B7FC962D8671D94867054859361A18293FFE4A720E1, 0x34587F80988DB9BD798CB5DA178EC512DB9AEC2FE35F85E0678B4E91F7C873B4)

  lemma Chain1()
    requires Sound(P256, G)
    ensures Multiple(P256, G, 0x2, TIMES_2)
    ensures Multiple(P256, G, 0x3, TIMES_3)
    ensures Multiple(P256, G, 0x5, TIMES_5)
    ensures Multiple(P256, G, 0x7, TIMES_7)
  {
    hide Sound, Scalar, Multiple;
    Once(P256, G);
    Doubles(P256, G, 0x1, G, 0xA249BCB3191802D3CB56FC75A8731F848E7B2CAF080F3477A4E4D904A671AF9D, TIMES_2);
    Adds(P256, G, 0x1, G, 0x2, TIMES_2, 0x28CDB0FE6681D140C59FB73F85F16459CA4CEE083742BADA762DE4CA226A8086, TIMES_3);
    Adds(P256, G, 0x3, TIMES_3, 0x2, TIMES_2, 0x63FED8962C05AE08AF71E0370A29504A31D75D0224FB0135DEDBF2B49DB4EC5A, TIMES_5);
    Adds(P256, G, 0x5, TIMES_5, 0x2, TIMES_2, 0x18C1A34F6673F28E46938EBF9B6006DFA555D9D25D6B2F629017FF18D0BDD6D4, TIMES_7);
  }

  lemma Chain2()
    requires Sound(P256, G)
    ensures Multiple(P256, G, 0x9, TIMES_9)
    ensures Multiple(P256, G, 0xB, TIMES_B)
    ensures Multiple(P256, G, 0xD, TIMES_D)
    ensures Multiple(P256, G, 0xF, TIMES_F)
  {
    hide Sound, Scalar, Multiple;
    Chain1();
    Adds(P256, G, 0x7, TIMES_7, 0x2, TIMES_2, 0xF99E2B967D8E0AFC87CAADB0694609415BCABA785F9C110A24A12FADCA6231B6, TIMES_9);
    Adds(P256, G, 0x9, TIMES_9, 0x2, TIMES_2, 0x16DD88585B31AB7FF112ECD9F4F7021E8F490327404D0833E208CCC3B94E18EF, TIMES_B);
    Adds(P256, G, 0xB, TIMES_B, 0x2, TIMES_2, 0xF26E7352F2CA442CA443DC72BB30806740769A5076E020A6932F7E4ECF8E5CF1, TIMES_D);
    Adds(P256, G, 0xD, TIMES_D, 0x2, TIMES_2, 0x5D8068EEB9ACD3D7640CC5E58C57A5869561FAFB50E6D2A788471EB709EE40CD, TIMES_F);
  }

  lemma Chain3()
    requires Sound(P256, G)
    ensures Multiple(P256, G, 0x3C, At(0x5DAE8C2C5A5AFBA7E53B9EFCAC1D0B8224559146918D320879BB82D96EF4963, 0xBB07A44D03C08119E2F782D0D70304CEF299E802D1D3BF625690236051D34324))
  {
    hide Sound, Scalar, Multiple;
    Chain1();
    Chain2();
    var q1 := At(0xB01A172A76A4602C92D3242CB897DDE3024C740DEBB215B4C6B0AAE93C2291A9, 0xE85C10743237DAD56FEC0E2DFBA703791C00F7701C7E16BDFD7C48538FC77FE2);
    Doubles(P256, G, 0x3, TIMES_3, 0xCFFDB37B9CADE05FDB719F4AD73B00878CCBBF536584DC9D3EA8A8BA9B0101FA, q1);
    var q2 := At(0x741DD5BDA817D95E4626537320E5D55179983028B2F82C99D500C5EE8624E3C4, 0x770B46A9C385FDC567383554887B1548EEB912C35BA5CA71995FF22CD4481D3);
    Doubles(P256, G, 0x6, q1, 0xAB40F035841123B3C17483CD304400824D7BB41358162D7EBD135CC10CCA8974, q2);
    var q3 := At(0x409F8DA21AEA236A5F5A1904D0310C1C6192A67D0DA08936319869A8AD0838A3, 0x70DCF7B1CF008E570E26E72BD3BD40F73E99A0EC162A6793E163D2C72A1E8F5A);
    Doubles(P256, G, 0xF, TIMES_F, 0xEE94ED8EC4EC9CF7D5783B311431460DED97ACC17A52F66463D4C9BB3700A939, q3);
    var q4 := At(0x5DAE8C2C5A5AFBA7E53B9EFCAC1D0B8224559146918D320879BB82D96EF4963, 0xBB07A44D03C08119E2F782D0D70304CEF299E802D1D3BF625690236051D34324);
    Doubles(P256, G, 0x1E, q3, 0x954E1702BB6EACFF2C16DFDDCDD735D0932C9A47D74139DC2BCC33FA893FD030, q4);
  }

  lemma Chain4()
    requires Sound(P256, G)
    ensures Multiple(P256, G, 0xFF, TIMES_FF)
    ensures Multiple(P256, G, 0x1FE, At(0x3DABE0C9D2184E797C2657698ADE55312D42895F799D62B16935E347BA25E8CB, 0x81C4776DE2F520423450CFFA9427100791F14B25CE7D9ED75D253FDA5D3578D5))
  {
    hide Sound, Scalar, Multiple;
    Chain2();
    Chain3();
    var q0 := At(0x5DAE8C2C5A5AFBA7E53B9EFCAC1D0B8224559146918D320879BB82D96EF4963, 0xBB07A44D03C08119E2F782D0D70304CEF299E802D1D3BF625690236051D34324);
    var q1 := At(0xE1B11B350DA02131F7F545859060D2BB386F232FFE4215F7E822F66CB672A1D8, 0xFC8BA02C6B27FC2F88454DF46ADBEECF2B8808616F111687B63AA9EC681F679C);
    Doubles(P256, G, 0x3C, q0, 0xFCDDB146265238F1A5C316525B94355A9BDADF49DD30F861BEBB35D3B372C4E8, q1);
    var q2 := At(0x99299BAA8B91BCF5076CBF03F2482B08576B2B057CD50E962767456E87E030EF, 0x5CC2E3D3333F8E18BF338101A6CEAA7957C12C499F4008444D8E6B7DD8D9AA9A);
    Doubles(P256, G, 0x78, q1, 0x3DA1C91591F903163CEF5A2CB9119BB8842A308BCA34AFAF06DF38CD194692A, q2);
    Adds(P256, G, 0xF0, q2, 0xF, TIMES_F, 0x59166C418E543BE3A56BE00316F9D268C759B59A178DB9BCBA696982A62DAD6C, TIMES_FF);
    var q3 := At(0x3DABE0C9D2184E797C2657698ADE55312D42895F799D62B16935E347BA25E8CB, 0x81C4776DE2F520423450CFFA9427100791F14B25CE7D9ED75D253FDA5D3578D5);
    Doubles(P256, G, 0xFF, TIMES_FF, 0x654834A2E2AF3B79968F41D26DA517933BAFD978D26F4115A21F5830D872938, q3);
  }

  lemma Chain5()
    requires Sound(P256, G)
    ensures Multiple(P256, G, 0x1FE0, At(0xBBF14C297989C3D81209D878309468837BC1B88CE2E4D006CFD228A65C225C48, 0x456B994A62F55EC2FFE647F347ECA52CD5F8F06B016911E616154099134E2823))
  {
    hide Sound, Scalar, Multiple;
    Chain4();
    var q0 := At(0x3DABE0C9D2184E797C2657698ADE55312D42895F799D62B16935E347BA25E8CB, 0x81C4776DE2F520423450CFFA9427100791F14B25CE7D9ED75D253FDA5D3578D5);
    var q1 := At(0x20A90CF94ACB628D5B9C9BB63F8DC8CE65A1F3A6C445F76C075280147DF42749, 0x71EB4BFF795AB242BD18D03211892279838EED6C5143377A66DA9C8209C0CE85);
    Doubles(P256, G, 0x1FE, q0, 0xA5320BD40141E5864483DEFCC981C8B7E48DC9D06522DA5E027EE255F28CF7A9, q1);
    var q2 := At(0x8FC3C70D26BBDE93EFD946DA4F010A8229663D09FDF310B4B309E5946FE11BC5, 0xCE4A88633ECD916F94682D0ACD267ED31BF98D676F96C9CE851341003E08E8E4);
    Doubles(P256, G, 0x3FC, q1, 0x1649266FDFB03BF5789E5212B00976B4628558E7412E33711568B247B993BC31, q2);
    var q3 := At(0x9528803E89AFC1EC63AB8C682CD822F0A8C355692C618C6B4B97FF8A31BFBFE, 0x9B67195737F3D7337F3AC1F7BEE3414A038235FB17DB219FD8A7C1F2AF71C8B4);
    Doubles(P256, G, 0x7F8, q2, 0xD6227A028C575B59048E7F2094A09FA6094899A85B243C69FF3BC94304B63349, q3);
    var q4 := At(0xBBF14C297989C3D81209D878309468837BC1B88CE2E4D006CFD228A65C225C48, 0x456B994A62F55EC2FFE647F347ECA52CD5F8F06B016911E616154099134E2823);
    Doubles(P256, G, 0xFF0, q3, 0x5B87882A964EDA17E7FD863532E4EB448B8F2AE1C8B08EC4736ED2F66D5BCE21, q4);
  }

  lemma Chain6()
    requires Sound(P256, G)
    ensures Multiple(P256, G, 0xFFFFFFFF, TIMES_FFFFFFFF)
    ensures Multiple(P256, G, 0x3FFFFFFFC, At(0x6184D2A091F07C3846F28108A5D4111A113EF877DF1B2E648B350E9FDCB3153F, 0xA9404E45027FA0C188AA763B8EBBB9DE825AE68B25B5B6049EAD0923D93F3E41))
  {
    hide Sound, Scalar, Multiple;
    Chain4();
    Chain5();
    var q0 := At(0xBBF14C297989C3D81209D878309468837BC1B88CE2E4D006CFD228A65C225C48, 0x456B994A62F55EC2FFE647F347ECA52CD5F8F06B016911E616154099134E2823);
    var q1 := At(0xFD5B20BFB2E1CEA7912CC870C8E381857005733B080D16829643A44A5F677FB7, 0x2EB69A6A1327611890D552D3AFE1368DA374FD8A0556EA1C0D92A996F672FF6);
    Doubles(P256, G, 0x1FE0, q0, 0x18F2FF2947E31E29D8DBEB28AC1E9C3BB4B1E19B0790172057524297EC7BAD6A, q1);
    var q2 := At(0xA9C970083DA23B988E56953728452063D42E2F1C0FF9F2DB23AEF7AD15F39492, 0x155DB059F4FFEE45712B353DD0C5D8F8ADFF6D8212F9BA4323CA9886CD6E62B4);
    Doubles(P256, G, 0x3FC0, q1, 0x26DA79F9502E7C53483E6BA6E14E04C08511F93087C68AFEEAFE9AC738C59FF7, q2);
    var q3 := At(0x3D13F658CA8DAE4F8B4407546C22D94DB9F22D82B363EA0D5BF23ADFB3420974, 0x137670C0DF9F78D5CD86DAC0818128103E80B16A1E5283DCD8AE30A23EAABF2);
    Doubles(P256, G, 0x7F80, q2, 0xD75D8AC8B00065BF0E2FD8DC29CAE6D9B6BAE0B37DE7A32DF0031EB6581BAED5, q3);
    Adds(P256, G, 0xFF00, q3, 0xFF, TIMES_FF, 0x34BACC63973D4F0DDB0A8DAA899A9A80A0870D91AF96236FE37E60B4F5C5C1A8, TIMES_FFFF);
    var q4 := At(0xD97487D5610C73159732D6906496FA43FE724D07519E7CE70551369B81F1236E, 0xB4E657D8843DA4DDD4EB932CA1D52DDD30BFAEAA23022B4D92CEE2A9592CCE8);
    Doubles(P256, G, 0xFFFF, TIMES_FFFF, 0x284437F876000545DEA5703645EE881B3A8D7B04AAB299EB6C09B5054A254E6B, q4);
    var q5 := At(0xB4BD01150916E4230B441953C515CD6ED3B7D8857282B5D239853B45B7472DB4, 0xD65D2CD76E2CA7038C609C629F0A3035B07B8406A2479D4E012B24BAA375C17E);
    Doubles(P256, G, 0x1FFFE, q4, 0xE70EC84D152E30078F2C9D14CEDF0285CACED12A663A4C8549ACDF6C958CD073, q5);
    var q6 := At(0xA8DA0D5429DF123DD5086E39F492C6F2C2A922F54E10D8D7ABC61441E240AEDA, 0x14339C3B9958BCC1751CAC4AA59EC17FF7AF138D720C444B56D687C4F952DF9E);
    Doubles(P256, G, 0x3FFFC, q5, 0x43A9C2D3EB10B269343FC01B197A463E93DBD94077DD2EDDBA6E2760F9DFC92C, q6);
    var q7 := At(0x379FB72B9110237DDAEAF1CDF35A4E8623F18C0D23B330FD2612F0A74E59D214, 0x1E5BADC3DAA5E1C0B7AE5157CAFD2AE4011B11465CB52BA43F964400C2760CB4);
    Doubles(P256, G, 0x7FFF8, q6, 0xA5BC43AA0BF6B131AAA992FBC635E855BD261E5C51ED1F1E32AF974D7687B1C3, q7);
    var q8 := At(0x8659F73D52CBA1CD4CCA3DEA54BD237AED7DF4880ED8E18DD474C52BF17E052A, 0xFA762BB2BA4B9AE9F882D25E5DD3234EFC4416FACFE6E084EBEF7D937FFC4B8C);
    Doubles(P256, G, 0xFFFF0, q7, 0x60AA80860D0251C804EF1C02324F45A10B6CCB40F2BC0D05B98AA45437926CE1, q8);
    var q9 := At(0x744F5E91D222B1723EF506984C0408B45FC9F481664B8D4DC655A4CEA5404C66, 0xC2E1438D7A79884B39F48E8C02017A49115B1B7D8E279521E49ABB0F1CA6B7E9);
    Doubles(P256, G, 0x1FFFE0, q8, 0x9842621B1BFAEA43984615A9E88570E30C5506155467DF9F226C8E78F08B851A, q9);
    var q10 := At(0x2B532EFDB108BB05896FFD5A0E81160DBDE843EC4E0B0697E11AE6EC1D7D44E2, 0x2487028B277B3F6884373C8C62CF422533C679F429494B20D852BDC0E7D19935);
    Doubles(P256, G, 0x3FFFC0, q9, 0x359CAC187ED65F63943191177FDC8BB6FF9EBD1250FB9AC208EB24A2C6B7E62F, q10);
    var q11 := At(0x3689EA2A4A86C6ADB4EE79BEB6A81A3BC4920C995FFBE5397FE3B357A57B88CF, 0x5FBBDF4BD1D3AD816D00019509DFF8E2F5B4CE8F3265FA4A7390FA3CD628DA27);
    Doubles(P256, G, 0x7FFF80, q10, 0xEE6392D7E2820CC8A13C4D744DB47E6FEC3B62D143E15A7787B369C449C123BF, q11);
    var q12 := At(0xF4CCA629B7F7D395B72500285BEF9F50165590B0BD8F2C68A60112E84075849A, 0xD3CC17680E65E118BC9CD6AAF219C5D399D6FB14D065427D6C39E637AA1F38DB);
    Doubles(P256, G, 0xFFFF00, q11, 0xADE2BB9D3D8AA9CE75A9964A461CBCFEB1594EC67F52D6EF756B9C9374CA17EC, q12);
    var q13 := At(0xF4F312238DEA594D7A3F4D4E8DB3F1F3058813832110FD42FDBAB6AF7325FDB5, 0xC521D54673097490D5D7F9AF3C9CE1FCEFF817ADBB7E6D679C768BBE93DB7C3D);
    Doubles(P256, G, 0x1FFFE00, q12, 0x67DD8497E454BE740CC067C46E3244FC930A24181D4400F258E9CFBE6D7B29E6, q13);
    var q14 := At(0xD964C9B37AADA69A4C49B68147F78D72F361A74B0F7B33DDDDDCB87A84252DA, 0x5979714F11B20CCC9B37088199F203A2924414D2D13C5ABE55A2D665DC6BC6C4);
    Doubles(P256, G, 0x3FFFC00, q13, 0x47CEB23224F364CF02800D492F504D2B68D77C941FFD212788E66334FD75BCC1, q14);
    var q15 := At(0x69DECDE88F1388003EED4C526EC377D65836C1A5154A6CF8908130A2F4C8C9C, 0xE8F4A771F8C5B201C1ED2BD4C2FCD1A064FB2EB61FE1DFB66A04652FA06ED757);
    Doubles(P256, G, 0x7FFF800, q14, 0xAB24F8737FCAF513FE36017BBA273284185C7F9C947A7859742C8668148EEE0, q15);
    var q16 := At(0x1FC2D39BE1F5603228320826C503C9E700F9BE4960B03B77667CFC6376127AFF, 0x2E702878F3481581122F20556A13575F791712E88484C3AC8A1A43E5701A49C3);
    Doubles(P256, G, 0xFFFF000, q15, 0x3D7CC84AD699C6201BD7CA3B3EAECEB9836A42D9E2D2A12A7FBBD0F35B32C4D0, q16);
    var q17 := At(0x4345D4FFB961D1BD8615CFEB30F2A55ED7F9A2CD672591C934883ED3365A40FD, 0x2FC37F86BD6F5FD2B606938C8481145A498242D888C84FB47BBD5607DD99881C);
    Doubles(P256, G, 0x1FFFE000, q16, 0xC99CE8827A7DFAA60382808AD42A6E8200A3A800E51C19E21657CCB6CA5C2CD6, q17);
    var q18 := At(0xC7D68DF246ED5EF92213E7095CB16D85741EA1DE7FB83D97B8334E803CC2A554, 0xC6934685C743F0E31A0C56CDF0B51CA30C3DCD10D0EFB2615E14451D11C3EAB5);
    Doubles(P256, G, 0x3FFFC000, q17, 0xBD79B363797CE6B85D87D1E3B92141BC2C1FACCEE717B9E000371FECB856C30F, q18);
    var q19 := At(0xC5A5F7D533B9D61B75161351E133B82808CEAE627575936F0D2A287F7C6D42D6, 0x44C5BB8E917B75AF5AB3D84F8D0473829ADB8D6D3FB88E3074AF6EB2C6316F8F);
    Doubles(P256, G, 0x7FFF8000, q18, 0x8F0A91050C341711E7398FADB0D22CB62C2C3E830236945830E7CADF8E7794BC, q19);
    Adds(P256, G, 0xFFFF0000, q19, 0xFFFF, TIMES_FFFF, 0xC5A66507C92C8C8733A32EFD4ED6150BCC0AEAD797788403203BBC6FADD29AD, TIMES_FFFFFFFF);
    var q20 := At(0x6F24DB5A219067F6C7ED039151A8D5AC91ED91D9BE5272B747B4E738B39A52DA, 0x1777F41A8DE3F291211FFDE201744DDFF0D3CB972B5CBD10C70E7A8E2AA70E31);
    Doubles(P256, G, 0xFFFFFFFF, TIMES_FFFFFFFF, 0xE7289190FBB5A7D7D62B51D40F3571670D41439C83A980A6EBF0C77129C5EA30, q20);
    var q21 := At(0x6184D2A091F07C3846F28108A5D4111A113EF877DF1B2E648B350E9FDCB3153F, 0xA9404E45027FA0C188AA763B8EBBB9DE825AE68B25B5B6049EAD0923D93F3E41);
    Doubles(P256, G, 0x1FFFFFFFE, q20, 0xC0C0F69007425DC498074987E7B1B2CC32E5EDF753F84C8D1E31E83A7F4C1FEF, q21);
  }

  lemma Chain7()
    requires Sound(P256, G)
    ensures Multiple(P256, G, 0x1FFFFFFFE000000, At(0x6FA565A378DDE0DF22F612F3779F8DB8FF70CCAE2E9BA8A15647F0AE541844EF, 0x7AE276BEC1D2BEC9D4EB64F0B20DA6FA810C27B136C0C00D0F0465141C8A47F0))
  {
    hide Sound, Scalar, Multiple;
    Chain6();
    var q0 := At(0x6184D2A091F07C3846F28108A5D4111A113EF877DF1B2E648B350E9FDCB3153F, 0xA9404E45027FA0C188AA763B8EBBB9DE825AE68B25B5B6049EAD0923D93F3E41);
    var q1 := At(0x8354E03A605B57989D8254E9094E3040E6ACA47E5FCFEEF4513C003DE9F0BF44, 0xF38DE2E2640576D5A32995C9A49AFECBA4DFF1093DD6B00B3AE64E2F51403216);
    Doubles(P256, G, 0x3FFFFFFFC, q0, 0xE2266A64FC9E96910BFCC391499F69E6E3862CDEE724BF5F53E52619A78D636B, q1);
    var q2 := At(0x803C9EABA8FA71EB4A4FA96536E4F714BDCEFF15C4F0F6B24FFBC30CF2458EDA, 0xA3F72ACB06BB7DA031F43D0B98CA5A3B17F600BF3077DB32F3F05F21C910018B);
    Doubles(P256, G, 0x7FFFFFFF8, q1, 0xF7BE988964EC4116F418581F98955A9CA415E34883C7A464AEFB4B965B9E49F7, q2);
    var q3 := At(0xF5BFDD6E28096DBADA5A90D36C5F333DDFCBAE3FF9F95A88FC428B92495ACACE, 0x7403DC2554FCFF16D40A046E05A3507AC66684A300481A48A36736B59FE7A734);
    Doubles(P256, G, 0xFFFFFFFF0, q2, 0x4EB34C79827117C2632524E9F4D02FECF1EEDE4CDBEDD17BC9B364E5EE04DD99, q3);
    var q4 := At(0xF9BFBF82DE9D176CA7C6BDF398A56FCBBABD61F41A4B6688BCEB6A4BA82B72C8, 0xC1ADAE302045783F941EF0DBE93EDB63C1F6B7FF42250DBFDCF2D2F99CBCAE9D);
    Doubles(P256, G, 0x1FFFFFFFE0, q3, 0x53B963E0E2A551F86B7527B4DA6CE25B70CC5B23592B9B7B4A6768E1EB9EAB20, q4);
    var q5 := At(0x45AACAC4387DB567315C42300D6461B1922B1D7B04D1EBCA6998B46442E508D2, 0xF77A05DFE6F590829AD72ADEF8124D06B6B456871A9E6D77BBBD140A55062A47);
    Doubles(P256, G, 0x3FFFFFFFC0, q4, 0xB8F8D77F98B07B91A739FE888EF94517D1E11EC5AE46114D5D9FCC91B1494E2F, q5);
    var q6 := At(0xE586D59F96D1C3239F908E358BB827E5776D721AC17837813D0CA0436CDFBA43, 0x2C221DF09914A1101705F1ADFB69FA1741EFA2214A16D935B2444B2C2A59AAE9);
    Doubles(P256, G, 0x7FFFFFFF80, q5, 0x856480BF6645295B7CC166FCBF9CCB4213CA02B689E6A51515B002A54653B436, q6);
    var q7 := At(0x25D493915D5523796695553F3B555771BA3C2D7991B127CF20C2D84BA10C6714, 0xDF23C7CBDDAC695731DA10CC2089659D67726230EA177580789562CDCFC3C66C);
    Doubles(P256, G, 0xFFFFFFFF00, q6, 0xE5BD602B7C75EFE5DD4BFEE34F6D5F15C12502DC3D6A454E8416BF7262EFD14D, q7);
    var q8 := At(0xCB57C89A7F748B1058850CAD0F56ABDC64BA3CC261CD57F30646B2D75172EA99, 0x6FA11FA312FB916FD9DC88DC5BF95567F413B9026287FD49D78E0C515DBAE569);
    Doubles(P256, G, 0x1FFFFFFFE00, q7, 0x901938D044075D035FEC1E3DCC28585A76A2C4F101473D40D33FAF2D07A666EF, q8);
    var q9 := At(0xDC46BA3BA5930172CB8D86B64358C623F82BF466C96D0BED7D46DD2DBDBED6C8, 0x36EB8F0FE74FFACB3756823DC92193FB371324AE5A9FB7B638C04DFBFF73428C);
    Doubles(P256, G, 0x3FFFFFFFC00, q8, 0x225568746C8026C61A929D9EE21CC8B663B8B70852D3EAB403172B36DB27773A, q9);
    var q10 := At(0x9FF074615589AC64025A090247B7ECDB5AF12A8CBC0D68280D93583A3CA4905C, 0x390559A84227AB1DBEC695C194B2A8B36706BE18032012D7588CDE558080D31C);
    Doubles(P256, G, 0x7FFFFFFF800, q9, 0x730E7F0E730508B34AF19C004AFC304711F461A3AD85AA214506BBB2D38216BC, q10);
    var q11 := At(0xDD75090DA916A7714ECBF81DCEEDCB4F8169F117A9914A1AB3AAA90BBD0CF019, 0x380A0E0FDCC7D2C1A44902D9B9F5EB12A3F5DC48693E7AB288291C0EA7F1F4CB);
    Doubles(P256, G, 0xFFFFFFFF000, q10, 0x61BCDB4B66643B59A748A3260DE0D150BA66D53835998A7618465429D353B8BC, q11);
    var q12 := At(0x5DA7422F1663C6D57E2D1582920E4644D7FB1F5597D27D56D00EB7FB982F582B, 0xC6DC13FD9F8BAC18F672B8FD5A1ED7FBB54EDDBF6C2D22F158FE9C312858A10B);
    Doubles(P256, G, 0x1FFFFFFFE000, q11, 0xC9651E62D6774D6D434978A729E20C44DBDF244C051785D459E9D397FAF72D77, q12);
    var q13 := At(0xCC5CF8384395586507E793938F79A3025602EF45FBF8A89E0FF6C5DB6A782A1C, 0xFB96D696EA57E0306D356BF964DD83943E50619E19DC791971D0E9A6A7840A5D);
    Doubles(P256, G, 0x3FFFFFFFC000, q12, 0xD5C0E76343A81B2FCCEBFE410EE5F059D6813035F76B381D8A4C32004E356535, q13);
    var q14 := At(0xF248D9B1B84AC2366FEE7D47FCE9F31C4533A9698BEE5EE13FAE5147B6139223, 0x73A4FBB68DCAEACE798186EE0008CF52F074446C745A91109967D36B922C3028);
    Doubles(P256, G, 0x7FFFFFFF8000, q13, 0x33CA08F7F6CAF3B2BC2DD0597E53765CE9A3A459A2D6EC8C14FD62B9829C8036, q14);
    var q15 := At(0x3F069F0CAF6D1B8A003183E31D6A7639FC9662FB33F78337C98FC3583BCDC78B, 0xF0D634C2804A56D4192802DECAF900685A573F23359CD35A7037E22BA20AB87E);
    Doubles(P256, G, 0xFFFFFFFF0000, q14, 0xE3D88474BF049AA8C92E117118D8AE2192BE22C3AFC88BBB6D45984B246B29A7, q15);
    var q16 := At(0x2B22713CB4D4D6F0729F0F208F747D99F65813FAF13D28CED0DB001F0BAD4171, 0x60442684CDB5AE6002E09997CC26F8BC3267C71A48DB3D6C479AC9FAE4E701E2);
    Doubles(P256, G, 0x1FFFFFFFE0000, q15, 0x48E767DE0F22738D95A0CDE900E2811F059CC9B0B4D8F7C6662C971F6DD8540E, q16);
    var q17 := At(0x6A2CA24329A14D2586D4D84AFBBC2E427CD19F30E5DA079043A0FF685627A21B, 0x715B966CBB3FBC9E8945F98206C054A762D417938414A26AF21974727D2C9926);
    Doubles(P256, G, 0x3FFFFFFFC0000, q16, 0x40CE2D624CCBDDA2181D7203ECEBA6F86C74FFECF1099F60709AFD4E366AD7FC, q17);
    var q18 := At(0xACE880FD319DB60E08E8312362822B4AAB68BC33F988EA72759DED54B65286C3, 0xA393C7A518957D2CD62437D88A15CED5E93C5EC758DD9206FC340760108FA157);
    Doubles(P256, G, 0x7FFFFFFF80000, q17, 0x7CA5A95DBD0F238188C92BC10FE3120CA5CDC8C94F5543F619E7B4A285FAC63, q18);
    var q19 := At(0x17D021E5A0822845DA7FF25F0CC23E3ECFB6E2B9ADAD4BF6FC0F32BC7663DF1, 0x8889B06B8F2BC13F3816C9F400CA112EEC03BE1B188B1FAB43488AEAA760C363);
    Doubles(P256, G, 0xFFFFFFFF00000, q18, 0x1695CB9ADD979F9B44BBA53CDDC3AF6EC9A9ADA1FCECCE7CC21C53EBFE9BF13F, q19);
    var q20 := At(0xD53D5A852CB411A97E99B8CB5BB9578B51D8C2E6B1711A9D23700327FD38E388, 0x1B20A99853937F9873930C491B525C60D2C0203C21CBAC126967833A34EBB804);
    Doubles(P256, G, 0x1FFFFFFFE00000, q19, 0xB52EF301BE713CD3721FB2EB26E9651C62DBD5611DBF05A2A082290BA0205C5B, q20);
    var q21 := At(0x24688C9B2B59562D73BAFA55E3694D2D98741C02069A5BFF70E14AFB6A34F44C, 0xD669974B3228C4A8A923DD131423654B3149FDE6979481CBABABD6E5E46FB164);
    Doubles(P256, G, 0x3FFFFFFFC00000, q20, 0x477A8D7B28FEFFAEE439432C1CB34E620D2B28F77D7A02DD8F8B7B25DA055F0A, q21);
    var q22 := At(0x11007F19319AF1A6D1CE80397DEEB0E8563689EE692BA5A0315C20927BCF0185, 0xE817E244A8C06AC138D4C0B10E6810088A0267B0DCF51E6766DCF514FB4B3291);
    Doubles(P256, G, 0x7FFFFFFF800000, q21, 0x3DF23D02BE64203DA86B3586F55929B44D3B721A7D42D1F74C2790F568DEDB19, q22);
    var q23 := At(0x6FA565A378DDE0DF22F612F3779F8DB8FF70CCAE2E9BA8A15647F0AE541844EF, 0x7AE276BEC1D2BEC9D4EB64F0B20DA6FA810C27B136C0C00D0F0465141C8A47F0);
    Doubles(P256, G, 0xFFFFFFFF000000, q22, 0xC4EDAB784CC66E9DC3DDC0A1BB35098ABBEBB6DA1BD0379F4F35495B1810DA1B, q23);
  }

  lemma Chain8()
    requires Sound(P256, G)
    ensures Multiple(P256, G, 0xFFFFFFFF000000000000, At(0x2F0CD80C1E9916F5563D7E896B34F023C7BE4A3451A8FA806506E52C0627BA93, 0x4DC9E9263D7E65284D56AD81E3386501361441477FE4F98C6ADE87B7DDF5D271))
  {
    hide Sound, Scalar, Multiple;
    Chain7();
    var q0 := At(0x6FA565A378DDE0DF22F612F3779F8DB8FF70CCAE2E9BA8A15647F0AE541844EF, 0x7AE276BEC1D2BEC9D4EB64F0B20DA6FA810C27B136C0C00D0F0465141C8A47F0);
    var q1 := At(0x6DB2FC5F840C467555DFC8257EACFED24CB8DAB28AFE143AC02EBF90E61DBBA0, 0xF7A91123A9A8B15E300D42A897C5793991E38FF29BD9757303CB4A2799AED283);
    Doubles(P256, G, 0x1FFFFFFFE000000, q0, 0x88FD5E6ED410C082C3CE11A91FB70B3F67E4A7765D05E18D7F947B38CA97F419, q1);
    var q2 := At(0xC3376DD235C533ECCCF4DDE080377E969556216F981CB9DB824041C9C94D7468, 0xA88754C4E3CD3D42FA0C78F4614D41B8BD7424DB314F6710B6EC89CB7DE14D0F);
    Doubles(P256, G, 0x3FFFFFFFC000000, q1, 0xF20A57EE70DF07D6CE91F0BD0A46160E3A6C07E71C958C66141E21069158D350, q2);
    var q3 := At(0x682C1373B018B924F6EC5EE81FD0D65DED7ABE66E21640E973F132B2253EE808, 0x67EECAD0DE63ED1D78E66B6EA15D5FC4253683955D973189A31BC585D170E061);
    Doubles(P256, G, 0x7FFFFFFF8000000, q2, 0xF1FBC80729AB01A5CCB119D4F3C345CB8F969116D59A28F5BC535098ECC8E08C, q3);
    var q4 := At(0x8F4960D0FAD5121E7FFFFE005DF1761DE7F8E1C2CDF965478173DBE628E75AF2, 0x7C853B801B2E85ABE2A219299D17921498C82BFBEC9ECD3EA2D6D5A066064C18);
    Doubles(P256, G, 0xFFFFFFFF0000000, q3, 0xB6F56F88616F73E59CD055FEDF26A4E7E9B7D3805A7210F8280CE5F968813BDB, q4);
    var q5 := At(0xB780013F82CAFD3FB064C465C74E23ABD489F4C630168820D51976A7B9C1A67F, 0x8483796ED584235343C4095575CE7FD0FA870B4F17DA440FF188EB514617CBDA);
    Doubles(P256, G, 0x1FFFFFFFE0000000, q4, 0x95293B8C9D1B7CBEE1C6A40DDDBFA08124CD4C445226188841A5CE723091ED70, q5);
    var q6 := At(0x59D10E27A2E1D2E0F244547873A77C6A9698147CFE238B843F329338C29AEBDA, 0xFE9421B3711CA96E839FDE225FD3FB52195F60E1434087B704602925F18C5F09);
    Doubles(P256, G, 0x3FFFFFFFC0000000, q5, 0x5FC30199770D63F9306B8EB5B70C590E7A78844D7F32B7599BFFE25242913AFC, q6);
    var q7 := At(0xB9CDBA7BFD6DADB74E360DBD5AA41547DAA0AFB084DE8807CD635BE8E4398FFC, 0x6422E5623A2035B7F4C596AFA4BDE2261698BE60C7B910BDEEE0554B1882C80);
    Doubles(P256, G, 0x7FFFFFFF80000000, q6, 0xE6F5915845524817C9B060C18D8B717CAC8FCA080E26CBCD288BF75A7FAAB605, q7);
    var q8 := At(0xD3E088B3D86E948A511CB9CD320EEF8885A923BFAFDD2E0045F1E3677EA17D8B, 0xA35C11622EE976688FCAE92CEF9B0A88AA57587AC49E2B69D1B33A403F5A98E3);
    Doubles(P256, G, 0xFFFFFFFF00000000, q7, 0x5964C5233F7FD444AC5E95E0039F0CAB6FA80871ADD7E1B32F0A722A6608889C, q8);
    var q9 := At(0xEEFD602F85546C6FEB2428F5BCEB6CC400EC680EC663DCE4B7168800B74A7F4C, 0x4ED6F3B4EE2669AD38432539763D66585C46A81AF01E7557D9B87F9FE614367);
    Doubles(P256, G, 0x1FFFFFFFE00000000, q8, 0x748605F98A44FFDB3930CEA42BF820C24251D42F4514668204D50214F20EC435, q9);
    var q10 := At(0x2E7A2E6FEB61FFD53DA8A3BD7D8967289AC109CF537C00CFFFE410A12FB715AC, 0xFB4D4A1B7DEEA4F310DD30892BE8D98007A78D510A3A0434DFC1547EFB43F30B);
    Doubles(P256, G, 0x3FFFFFFFC00000000, q9, 0xBFA7581BA17E7011A35037F5554EC574466581D61EBF651BE54010D1B3462128, q10);
    var q11 := At(0x8AF778EA48BD951207DF9783C1B903D1F1228E1A898DC77A1A9122F8D78265B0, 0xEEB65AD4BCA0878F8DA03DDAE0DDE90504EEB9F7C175CFB158C6D018B807AF34);
    Doubles(P256, G, 0x7FFFFFFF800000000, q10, 0x15CCF0C1CBB1265789C91D1E08AF146542FC69685D2F29BBF2B57C8BE05B29DC, q11);
    var q12 := At(0xE49F610CEBA9706CDCC1298E4DD50E5822C3F6D01BB2E37DCF5D8FCD226D7607, 0x42C91F66C389CBB00E778CC47C646DA335B60554DBEA393807CCD40FA29E817D);
    Doubles(P256, G, 0xFFFFFFFF000000000, q11, 0x132E377C356DC604CE9009F2FE476DC8BCE83718D159BB94BB3881B71A9CD6C, q12);
    var q13 := At(0x25B62A5D3DF9C0C6FB907A96AB59E4047DADE36123BE380EB234CCE760CDF29, 0x908F3AD75C78AA4EB9605AA92B018058AC49D87ECBCBD7E59450902B47890E12);
    Doubles(P256, G, 0x1FFFFFFFE000000000, q12, 0x10D1A977F9E36431971A8912741876BCCBE9607E868C6C2D087999D483393764, q13);
    var q14 := At(0x77AF8E4F01E0FDA8953835322951C177F578029D9CB5F50EF144514C68C4E67B, 0xD26DC19817217FD0CEDB614EAC140658B5DE6960599737046FD6AB1088217BA9);
    Doubles(P256, G, 0x3FFFFFFFC000000000, q13, 0x1A1E60204CB24B6CF07E7EF26B311C8AE19E1FB468CFBB0376B0F1F06726556B, q14);
    var q15 := At(0x3D1023F9DDD701CB9AD3C6DAE21CDAC30005EDC4691DBD1088AA6DD186DD166E, 0xCB61649DAB4B66726DFB4CB6BA455F317AD220B1FDE9B649F36579A3616A61FA);
    Doubles(P256, G, 0x7FFFFFFF8000000000, q14, 0xE071868AC00BFE0328BB9E9BDFC84218ABD265F4F0C26E5E8A422BF9B8474F7A, q15);
    var q16 := At(0x148967A47D7220BFD064461D2B6D32A86A02041F7B274FD16AB766BE87DBC03D, 0xE45C3348B9BF133E1E19B6DABFCA7D5B6B81A7D695D12B3B1C937C4F9D6C8364);
    Doubles(P256, G, 0xFFFFFFFF0000000000, q15, 0x254C920E29F647D75B90A68ADD2D1AA6D572BC42EB1A0C689289B7B6F8F924C0, q16);
    var q17 := At(0x8F52C4304B2BF6E6019682D703737B8CE1BA733CBC7849390821A10CFB742CC7, 0x3747644257656ED80EAA47410DBE302FA304F179C841596832B51F5A20949069);
    Doubles(P256, G, 0x1FFFFFFFE0000000000, q16, 0x52CC77D77A790D260C5EC4AB5E43BAB3FB0494B31D2C7CF7A3C80B87A580ED1F, q17);
    var q18 := At(0xE0308881DBCDF7EAC6F7656F692FC47ED15E2A406CC3B14F30920122C5E5B4DF, 0x3422887220F980FAB0D5CF64EE8AE716A0E8E7923460F92C59AC54241F7CD922);
    Doubles(P256, G, 0x3FFFFFFFC0000000000, q17, 0xDD253971FF4F370FD7DCDBE46E8AE8032C9879364D66C99E192B0F3287BC0B53, q18);
    var q19 := At(0x5F1B6CAC7386FCBEE830761DB554D1520A5608B5C3E5F81546857EEE58198CE9, 0xA7B3161FDBA5E580F274BB503C0796D66BB42F60E66F21CB9A3160B6DE742F1C);
    Doubles(P256, G, 0x7FFFFFFF80000000000, q18, 0xEDDDFDBD0A84DFB7F7F5FA366EBED05594FBF805ED249956968CCD8083CD3374, q19);
    var q20 := At(0xB0A7F7C6268A00C824A22B991E245F42A12BFDC708E8A83AB06262543F2BAF23, 0xC190B9F4FDE71F76A4F71C477B9C42B5793919E2AD989D85E4FA579DECA09CF9);
    Doubles(P256, G, 0xFFFFFFFF00000000000, q19, 0xBF823F6BF24AEF6081F1E3F108E981F357242D34B6311601C3B45B9AE0112B65, q20);
    var q21 := At(0xE752869A18037091B59D5B26B7E5B6F450224CD3F210771D92FC1506EB262D85, 0x5092F855F778DFE615A07C5DD14A909F00EE5EE30EEE79199370FE5B365A0126);
    Doubles(P256, G, 0x1FFFFFFFE00000000000, q20, 0x8BDE950E45F61E9E42F9CD262F4C319028CE9C97AC77633D1D5A12DA8A1798BC, q21);
    var q22 := At(0x3C678C3C05BAB18B8C2503A4C6EBC4C9303959E18A90F9E543AEC6F94A2F3A1D, 0x56CA8B531EB29B81FCC885023FDEEDA4633A3E2E4F7A51C4B4F13586AF4FD46B);
    Doubles(P256, G, 0x3FFFFFFFC00000000000, q21, 0x48E990F8CA2A4FF88D53F18D4AE0D03635A3CD626854543F28F55CD02022B4A5, q22);
    var q23 := At(0x2F0CD80C1E9916F5563D7E896B34F023C7BE4A3451A8FA806506E52C0627BA93, 0x4DC9E9263D7E65284D56AD81E3386501361441477FE4F98C6ADE87B7DDF5D271);
    Doubles(P256, G, 0x7FFFFFFF800000000000, q22, 0xFE189B18522D6FE1B04B38062C250CD07514C90FE6DC37716D2B5E8493F357E0, q23);
  }

  lemma Chain9()
    requires Sound(P256, G)
    ensures Multiple(P256, G, 0x3FFFFFFFC00000003FFFFFFFC0, At(0x162F22802B3A00E0C74593B33550AC8688D520FC984166ABDCD466CAAD40A9E1, 0x2ED0ACA70002FB78430F00067DB2C47722392039C4FD92C7F032EB9E9619CCCD))
  {
    hide Sound, Scalar, Multiple;
    Chain6();
    Chain8();
    var q0 := At(0x2F0CD80C1E9916F5563D7E896B34F023C7BE4A3451A8FA806506E52C0627BA93, 0x4DC9E9263D7E65284D56AD81E3386501361441477FE4F98C6ADE87B7DDF5D271);
    var q1 := At(0x6251D6D3E29476CE36595ED4011D79A5F99E92A0466749C046D4649618342A24, 0x24CCFA7CF99A9155A86733F38C7E6F3ABF94EC573D9D232C6D0E533213FDBB28);
    Doubles(P256, G, 0xFFFFFFFF000000000000, q0, 0x7E8FE9BB9E707CD872BBD28CDA2256D5688BA9A4AE09C17EA1B04EB9283670EF, q1);
    var q2 := At(0x7ACEE7F81D3A82A1EDF8B5E3EFAF29EF9FC4D923C5A58B9C9DF50171DE4E1A85, 0x69173E25ED1973989E422B32275F6A9A320C038443E36D9D6A1F5E9DE0CEF31E);
    Doubles(P256, G, 0x1FFFFFFFE000000000000, q1, 0x7E538D01CEEE43459CA01EEC09944424EC5DE5378258ED78564A373E4EE53B18, q2);
    var q3 := At(0x750E075CB733A91BB8F5696A09A6EF1B57E8B1B0E2E00D37F6E013F7C3AC6B6C, 0x66BA53B1E26A4D08BE86F31B1EF8BCA9A05B69887678F1273C65FAAD845856F5);
    Doubles(P256, G, 0x3FFFFFFFC000000000000, q2, 0xFAE62F8C4843292901276FB6E71231A5F07590A93671E5E265574033128CD213, q3);
    var q4 := At(0x1F0756D7084C25E3577831844763CE86DED4A8EE219FC77CAD82A565DADD37EF, 0x2FB35CA389B734B7FC642AE0DAA1FB0201616475C50C490753FEE92E55503F1A);
    Doubles(P256, G, 0x7FFFFFFF8000000000000, q3, 0x97EFBAFBF382C18A7E82C94CF13F3F4CA2158E7D4B8213E14ADBE6C61FEDDED6, q4);
    var q5 := At(0x4DE4B8669E771C889192886A4A497A293BE7BC49BED5B14B9E4C3446131B7E7F, 0xF8533B55A1F1BB814E73E93AD077E717E6A20EE598ACB490991F70CF64A5DB86);
    Doubles(P256, G, 0xFFFFFFFF0000000000000, q4, 0x9857183C4ACD138C11BBD9ED9D40EA48A4FF2004E9FEBBCC3EB4A8C642A240AD, q5);
    var q6 := At(0x34209A3AB9654FD0C7639F3F66A3C98BB507F9BE69214DDF6A21A657FA0EF029, 0x7535EF8E94E09EBDF2C9C53FD88EFAA5F42C1C9DA62B22C2571BE34C093BC667);
    Doubles(P256, G, 0x1FFFFFFFE0000000000000, q5, 0x64488D9175A463225D8162A4B6D9275A3FB8B54D9B895857F0D7EDE8D1E1C268, q6);
    var q7 := At(0xBC59C4226E36C73A8652FD9FB989B09B108EE19DBF7C25717A80EC4F16B2F742, 0x75D4DD51834B4957D83A9F40E248B164274C2D3142742215C793B3C14338031F);
    Doubles(P256, G, 0x3FFFFFFFC0000000000000, q6, 0x1CE01033D3F5A2A032D987BA907215AC14D10CF4584191E3C3F263B72A44334C, q7);
    var q8 := At(0xBB9D2D7239DDB6C201416ECAA8327BE9BF6499000C5D9F3F4E0CBC25EE7F3FDA, 0xD2496AF1BF641CBDEA7CD83E0758FF23880CC96F5C491830A52A580A05E12209);
    Doubles(P256, G, 0x7FFFFFFF80000000000000, q7, 0xB069AAE63092AC7FD78100B1E55E7B6AA901678E040FE71A2E697E18739C77D, q8);
    var q9 := At(0x8AD473C573FE9437686678DE9457D45EFCE74D547F21C3E766E2E6D369DFAF0F, 0x88DC565E91B34F48710673C6E23D5C5883728B0787A2431854EC83BEC50FFC16);
    Doubles(P256, G, 0xFFFFFFFF00000000000000, q8, 0x90D3A4702ECCFF3E37DA7AC0CFD6A420E0440EDB43E375481D9EDE78402E4563, q9);
    var q10 := At(0xCAF9F83C4B9DA6241A0076C1CEBCDE25CC8891DF4A017F9E1BA6FD8A955DBAD4, 0x393E57A11E8D28C365DD4DB189A79ABF8952D5D40908AE7956B81A0125FEFF8F);
    Doubles(P256, G, 0x1FFFFFFFE00000000000000, q9, 0xE08B3EBEABBF2D6EE95009601503E146B4EF0FE251A7BD20125D79D61D48D203, q10);
    var q11 := At(0xA2EB7B88A2F3D9F7B74D987F6F828941C8C63EE39969D34EDE8A5093609EE3AB, 0xB02D031438A93F95007B18D281B824B113279104F70ECD52AF4344E5D8C56907);
    Doubles(P256, G, 0x3FFFFFFFC00000000000000, q10, 0xC58638A1DD9670BC6B85764FC21BA1318C5038224B97EB4159548302ED0F79C2, q11);
    var q12 := At(0x9C17DBD2E5E19096AC5ED100C4C1925F51FDD766916DE95258E24B3A6DC06114, 0xE6E118CDCB2F15A2A4B00045DF961D3F50BBD0C9C1CE1B529C58F1759976AB0);
    Doubles(P256, G, 0x7FFFFFFF800000000000000, q11, 0x2281D19BF1A0689E1D6457DA51286CA1BA9D5B42BB467326FBC54BC15D83C618, q12);
    var q13 := At(0x21805090F57E1140F757886426022772B43F1E60DD9641FD1E6B48FE586963C1, 0x48E9D28F44A269FE97716243DF1905E861B631FA233FA2C01B95B7E42F78525D);
    Doubles(P256, G, 0xFFFFFFFF000000000000000, q12, 0x7EB2BA6CC261B469FC66EECEE573EA1BDCFFDDC1AB7BFEFCFAD7E60E4CB1C4FC, q13);
    var q14 := At(0x94A1C3CA4CAEB7223DBEE17C3F120FCBC84F879369F3085F6CAC3D95F8EFA3BF, 0xAC84E512BD8D4EECE9D62CEBCDDF279AC98F7F67AADF59281D7723E9BDFBCAA2);
    Doubles(P256, G, 0x1FFFFFFFE000000000000000, q13, 0x40C42881280BD1F66E6F791F9F930A92B81E68278962D16EF078362488E54428, q14);
    var q15 := At(0xD0326E0CF1E4994F11B14E3B70A1783D0EAC666BA8575742A80963467184FF78, 0x4848A0714B0B45BD1BDC8E4B29AEEC53B5E804747FE1C1778D6C100A946EF26);
    Doubles(P256, G, 0x3FFFFFFFC000000000000000, q14, 0x69C306629CEF4A4AC90D387BC256A8CAD1A84CD487C0BCF4382D93C9BBECBC45, q15);
    var q16 := At(0x75836B4F978CDEF208213952775360C17794016E2431ECEF664EF1FD9CEDE83B, 0x4D2E4AEF60803A5033A4575099C1581A4D93AE6BA5A41B52A1C72D568DBEFBD6);
    Doubles(P256, G, 0x7FFFFFFF8000000000000000, q15, 0x84063339235EE83099F686E2684E2015E86A9C517279EA036C803A6D0D5B87B7, q16);
    var q17 := At(0xEB26590892332D8F2DAA49906423FD6123641184E123C44519207317C49DFCF7, 0x9A5956C198B639C2DC64C68252D28CC674C2943144B78B2641D87D6E0A5F537E);
    Adds(P256, G, 0xFFFFFFFF0000000000000000, q16, 0xFFFFFFFF, TIMES_FFFFFFFF, 0xCB993D45DEEF7A169EA5FCCA9924E0285740DA25F48430FF961D4196CB8ABB7C, q17);
    var q18 := At(0x59EDFE5995F1BF8E6B6BCB48214AE0D59E5529BDD21688D6FB2C844E1268D7CF, 0x7E7DE23520B7505E4B173E5581E2597D2905C566FF674A5A996997A47CD4F169);
    Doubles(P256, G, 0xFFFFFFFF00000000FFFFFFFF, q17, 0x2B533D0D75373494AB6E521E47C78B73EC0DA04ED717F1DD6289E1CCFB6547E7, q18);
    var q19 := At(0x4167F1A7D91677A678794125DBDD1057A4C235D748A0DA40BDB0588D83621FEA, 0xA63646F2A966D0BBE27E51F66C2DDABEB447C7FC366B4D087EDA9DBEE762DF24);
    Doubles(P256, G, 0x1FFFFFFFE00000001FFFFFFFE, q18, 0x3BEFA847FF61FDD6E18D9C74828D6B81E4A67132F69487ECD9DE0B41A2C1A54, q19);
    var q20 := At(0xB38C9C906B1A3DC2E6EA07D098FD7BC48D74D4391B439DADF4E4D9ACF199695A, 0x518B8E22AFE96E4D05C7ACE8CBC131DE81702F9C55CCFDBC6897F02C9EBA7A8E);
    Doubles(P256, G, 0x3FFFFFFFC00000003FFFFFFFC, q19, 0x6275C6E3AB21875EAC97D9DB4210B0230E22F3FC2585F92774DD7DA0D884C580, q20);
    var q21 := At(0x1D7028E76172D2A46C9678374545663BFCCFA13E53AFF458C02BBC0F39D2B0E8, 0x915762D4B73D82A5280FD60D1A532452EF5DB0C3532DDB1AFD2C3521492228FE);
    Doubles(P256, G, 0x7FFFFFFF800000007FFFFFFF8, q20, 0xD9389A2E9BE97A11907EA996B368FFD6F5B13E64747259F93D8CF9CE1343D0BF, q21);
    var q22 := At(0x92E58221A072E45BAAF9620627A4E21CE5CDC988738237D8969A5CF7752A35C0, 0x35B1FB7E45AD084CECD9831926F13C4138169BF6986A5347A04FA0CA76672F41);
    Doubles(P256, G, 0xFFFFFFFF00000000FFFFFFFF0, q21, 0x6D2B2DB140A44662DBB0D2B928059438937B3A997C32B1E9D2A32DE34C966E93, q22);
    var q23 := At(0x162F22802B3A00E0C74593B33550AC8688D520FC984166ABDCD466CAAD40A9E1, 0x2ED0ACA70002FB78430F00067DB2C47722392039C4FD92C7F032EB9E9619CCCD);
    Doubles(P256, G, 0x1FFFFFFFE00000001FFFFFFFE0, q22, 0xEED006C163FC93FD183A319243175ADF56DBE54D8BA546FF4ABAA2C20D94165E, q23);
  }

  lemma Chain10()
    requires Sound(P256, G)
    ensures Multiple(P256, G, 0x1FFFFFFFE00000001FFFFFFFE0000000, At(0x12C7ECEBAF0C013DF0CC505BA1198456B55B1DA4D7C51521C8BEE2BC06D697B6, 0xC297DCF3ED52341A98C8A812B951BD4F2759F92C797E9FAD5D287AF40781D4E4))
  {
    hide Sound, Scalar, Multiple;
    Chain9();
    var q0 := At(0x162F22802B3A00E0C74593B33550AC8688D520FC984166ABDCD466CAAD40A9E1, 0x2ED0ACA70002FB78430F00067DB2C47722392039C4FD92C7F032EB9E9619CCCD);
    var q1 := At(0x86E3D6E880AE7CC5B5CF10787CC239D4E987112E6B6909B264266033C4308FB9, 0x3D49F345D91F26F8825985804A5662DDD65A0D13F7BCF3569D6C52AE8F16C8F6);
    Doubles(P256, G, 0x3FFFFFFFC00000003FFFFFFFC0, q0, 0x51FE0B59B06C2784710DA320AFD77705E6A637F71D95A0B9B9977E3EDC6862DC, q1);
    var q2 := At(0xA058D3BE85E5597D41AFF5162C46CB43A34DA86E880FAC64FB44D0ACAC825C4A, 0xE4825E7B06092055FFB8ABEBE768C27AAE48D40ECDBC5157CFD4511928CA5302);
    Doubles(P256, G, 0x7FFFFFFF800000007FFFFFFF80, q1, 0x9A5BE2BD4B0EEFEF974DAF36CF337FEAB13D8EF573309CF5DB7F5F5EED2C39B0, q2);
    var q3 := At(0x46FEEBF9F24ED801234D9D4C793BE1E26015C5E6B3B80CBCB27ABDA6578A11CD, 0x4707F231CADEF19194B9368C703843E632D2705D083B428FD848AD791E6539A0);
    Doubles(P256, G, 0xFFFFFFFF00000000FFFFFFFF00, q2, 0x4385985DE48BCD9CED1C5539DC3B8243A028A197F290D54C929BE944A496E46D, q3);
    var q4 := At(0x8C40DAD5764E8D75867A7F5D68C912C1C0A3AF4DBC4EE293D92D2315E004E911, 0x16095C83903FB8B98C7CE8FA37601AE7A524F982B3B12FE9B8ECEE7E64B20C0E);
    Doubles(P256, G, 0x1FFFFFFFE00000001FFFFFFFE00, q3, 0xE7E3A16F180935443C48030B0F3463AF79DF183D1F0EFF933BAF17EA2E70D877, q4);
    var q5 := At(0x7B20F23FB01CFB79A674F179EE94C3BB55CFC28D91BA68F8ECEE4F82DDA952AD, 0xF39B679A18BD5A9439E4B5CE5DB39B2098D8BBC8F8429F817004AC049887836);
    Doubles(P256, G, 0x3FFFFFFFC00000003FFFFFFFC00, q4, 0x10F293CA565515A23CF4767749BACEE2574C7DCC90279EE5A7A633DEF58B1A62, q5);
    var q6 := At(0x99713920C368D6D49B6340B41374A6B725584255B42552EE4DEC52B703D6230F, 0xCF8201E85666F2D4A6FD1CD249812705ACBC36B6A91EA429FBA7BF50AC25CC9E);
    Doubles(P256, G, 0x7FFFFFFF800000007FFFFFFF800, q5, 0xF475E468F374711A7FAADCA054F40297058D68C5C7040B5727B8B81F02E2FA5B, q6);
    var q7 := At(0x2191FBB0B4DEB84A771D52C6DB5B7ED60C7C27AFB3169F70AE013296CE0B419D, 0x3E2FB174D7180A37DFE7F87A143AAF124866885308BF2AABFD1F148CDA98E9E3);
    Doubles(P256, G, 0xFFFFFFFF00000000FFFFFFFF000, q6, 0xEBA9594B0EDC39B7326B68735AE36551456313C10C7F43482759D72937617AAC, q7);
    var q8 := At(0xE5E9B6C278031EE6D67C7066F05F88E36C90FD6CF9C54C8B866267495D7957E8, 0xAFFA121C5041E1A24596203907DB4C288154ECD18A3D956447587088F4724F21);
    Doubles(P256, G, 0x1FFFFFFFE00000001FFFFFFFE000, q7, 0x3E0D64B9245143B7844FAE049F513663D2C107CDDA373ABE5AF783AAF3C16C8D, q8);
    var q9 := At(0x94364F224FDE45EF367E6DCED6F1442CCFA6D13D5A402BE2142445CFBAF98119, 0xEC4743C9C9A0499CCC2C487B01E0B1176CDACD49473106B7823C82D6D1D9B9B9);
    Doubles(P256, G, 0x3FFFFFFFC00000003FFFFFFFC000, q8, 0x89CE98D405EA331251A62C5605990F0CCD4014A3DBBCC06ECC8E641C543F67B1, q9);
    var q10 := At(0xCEDBBA90B3E06302F37D7FC8B43F47FAD95B1E73E62A41D922AC0D4393EAF883, 0xF120AE2E45C53A864350CC1846A1E22DF5768A38BCF3B8D5FC14E69FACCAB534);
    Doubles(P256, G, 0x7FFFFFFF800000007FFFFFFF8000, q9, 0x74C318957D59FEAFD656BDC1209F9E8B4AEEA426991FE2BA4E8FA26A491F2C7, q10);
    var q11 := At(0xA5A202A7BCD85012318FABBBC7990123CF08A56E48A2FB34ED30D1A8E639F750, 0xABD34C7F9990C334380A2DA5EB348FE9BD11C06B850F168F2C356E834E0D02B9);
    Doubles(P256, G, 0xFFFFFFFF00000000FFFFFFFF0000, q10, 0xE3646BAC638D354E623C6083101CDA5E6636350D6A47910F8144234BEEA1604E, q11);
    var q12 := At(0xA985A78F114337EBEBC1B2DAEDD159F206C9077C94EA6ED24D238A399528EC02, 0x1F3C32470B17608F7362293EB370360362ED395528EFB54375FF3D61FC42E413);
    Doubles(P256, G, 0x1FFFFFFFE00000001FFFFFFFE0000, q11, 0x766B55516956BBC5E44EA941B22E2271819570DC2EA949C715EAC223CE0815C3, q12);
    var q13 := At(0x88FAD29148F723C1B6B342C339EAF6BCC2EC706E9CC86C5D4524C6956F8554A3, 0xF7B3A2BBA8B6DB054D1A1A8F2C5661D05BD47B038B4562FF31D35F3946241397);
    Doubles(P256, G, 0x3FFFFFFFC00000003FFFFFFFC0000, q12, 0x574EA46E74B7210C9367B4D6FFA430A0643932246E1B381385EFC1BB87D7F469, q13);
    var q14 := At(0x5854E7E87212A8B4445BDBBE620B5D0AF0AED80D2C6778ABF263DF8230A6DEF9, 0x2E00E6D9D4AE4B76CDFB3EACB07393173260BF3AE3AB19F299D67E9F66C807A);
    Doubles(P256, G, 0x7FFFFFFF800000007FFFFFFF80000, q13, 0x9247ECDCFA235EA60A8F607CFFD365A0EE12708C3D05DDD9BEC5E856B4AEA763, q14);
    var q15 := At(0x3C094B92D1DCBCE146D17EE1C3C4E99C6D1D3C00B430A6D49CBBE2AD663834B, 0xF22D5CEB6B02C0901C0DD4B013A3ED78527D5540ACE0D2D7AB7F9542C94A552C);
    Doubles(P256, G, 0xFFFFFFFF00000000FFFFFFFF00000, q14, 0xECC148F099C5B07D965E6C8DFA29D83BDE413659D6DE7D34BB4CF541EF7E6E77, q15);
    var q16 := At(0xF441B888FF8B026930D459B0365E60EDAE48CFF04EFE1862E71236486831354B, 0x841DE83008B4643076A02C49E727FC1B7CC2068D784A7D30AC193FDBD4C54293);
    Doubles(P256, G, 0x1FFFFFFFE00000001FFFFFFFE00000, q15, 0xC2C512DB09996D20FACB085F93ABB248642E3FAFBCDACC28B2E9F25D70F61199, q16);
    var q17 := At(0xA6D429EC3440F200E3EB58C7842EDB69B662343818F5B7DBCACB0963A9899CD9, 0xC94544DBFC0ADD003B048A9286257D30E72FDD4F836C43803CAC14445FDB269B);
    Doubles(P256, G, 0x3FFFFFFFC00000003FFFFFFFC00000, q16, 0x48A29CB460EA2D0C3B68947F8099896CD8EEF7D0EB01B615055B0DBF2D55BD13, q17);
    var q18 := At(0xB199B926A2E39B95FA9F98B76ADB15F961B947EB7F995801267C64DF88DB480D, 0x22C56F0E6969FB81D234FA8F1CF98F5006517D8E883788D74BBA75D411790C59);
    Doubles(P256, G, 0x7FFFFFFF800000007FFFFFFF800000, q17, 0xE5299495B4D1FF37B77D18D71F0296AF7CA3DE4A393D5FB77CF5AD629763F819, q18);
    var q19 := At(0xD14896DDDE26FE8F408FB8D25A82143122D63E67598FFDFF954FE1EEE7703758, 0xB249AE7EAECD7B42F99519F56F9C2BC4160E42A003615FB1BB82094340B5E8D);
    Doubles(P256, G, 0xFFFFFFFF00000000FFFFFFFF000000, q18, 0xACAB46B4727A33897E8938024A1EE2923686B350F5EA25FE0A35EFE8B90F888D, q19);
    var q20 := At(0x5208F67DC09F96FBEA52DFC2C798DBC49AFBBEC6107D91D0618CAB2C508F5944, 0xC226C5A0C4AEF3791BD1B5D2260651C7F358E531164F96746074A2FF1B62728D);
    Doubles(P256, G, 0x1FFFFFFFE00000001FFFFFFFE000000, q19, 0x775E7C437DBCA5821071AABE4C867EDEA4B2D0F99697BA86CCF392B1F8F523F8, q20);
    var q21 := At(0x2EE4EC7587650949216DBA1F1065519810E8693403DBE2994D644868F1376E27, 0x7B32435B81628657B5DF622C679E148EED5BF51F714FF18202CC2F38CE02298);
    Doubles(P256, G, 0x3FFFFFFFC00000003FFFFFFFC000000, q20, 0x144F50E14100A377C3FA8CD47E26A4392419C429BF2E6C150507A583171D5EDF, q21);
    var q22 := At(0x1E0536405ADD2E853F74B68B9AFD1994DABC75AD660FDC303F8D4751A895CCFD, 0xAD2D399EC1975A03FADDB3B5C2409D7A21F66284EC30A0CF3BF76673A954F7F4);
    Doubles(P256, G, 0x7FFFFFFF800000007FFFFFFF8000000, q21, 0x207BEC157A964153D703A61469AE7F9DDE7F66226DE1E61D2CC1F4081C254C01, q22);
    var q23 := At(0x12C7ECEBAF0C013DF0CC505BA1198456B55B1DA4D7C51521C8BEE2BC06D697B6, 0xC297DCF3ED52341A98C8A812B951BD4F2759F92C797E9FAD5D287AF40781D4E4);
    Doubles(P256, G, 0xFFFFFFFF00000000FFFFFFFF0000000, q22, 0x669BBE7356FB65C103540612FF1BA57690F9BAD10355CD27AB6200B6082A075A, q23);
  }

  lemma Chain11()
    requires Sound(P256, G)
    ensures Multiple(P256, G, 0xFFFFFFFF00000000FFFFFFFFFFFFFFFFBCE0, At(0xA3F8B20ECF12853DA3B2345F0F6BD7D4CF505BA23DBAC958A81451666CF8BBEE, 0x7B3FF85632DAA06AF862BBF259FFB1610CBB118197FBF3135B6C42BB1AA7812A))
  {
    hide Sound, Scalar, Multiple;
    Chain1();
    Chain2();
    Chain6();
    Chain10();
    var q0 := At(0x12C7ECEBAF0C013DF0CC505BA1198456B55B1DA4D7C51521C8BEE2BC06D697B6, 0xC297DCF3ED52341A98C8A812B951BD4F2759F92C797E9FAD5D287AF40781D4E4);
    var q1 := At(0xB39A6695D647C4AFCC95368E0D50DEC3026279103369FD9444AAC135BA8F088B, 0xC867B6C605A6B84D1A497DC9EDEFB20A2BD74E0B616B9190916010D566607021);
    Doubles(P256, G, 0x1FFFFFFFE00000001FFFFFFFE0000000, q0, 0x83233CB9CBE5891E91AA4B3FBB02796F2788C144E66FDA36DF8DA460B6CA13B8, q1);
    var q2 := At(0x498A396997234AA91901FB2B8CC4A8F8B09CF9E49BD02D60DA263BCA8BD3B2E1, 0x97D32C948220AB409C131C9C7B90BAE24FA4FB8C6DCDC8E350674004D18C9);
    Doubles(P256, G, 0x3FFFFFFFC00000003FFFFFFFC0000000, q1, 0x4748D91C04602565FCCEDA28AB2ACC13813F3EC672EE684E7A1D3134EC0B57CE, q2);
    var q3 := At(0xD20B2642D87BDC3885AE2A9AAFD92963E4BA877BF4712AB152A3D160AA030C2, 0x7F88027C5F8CEB5B92DC73C6034ABD4AA601340E5A71BA6458C8CF9F512FB961);
    Doubles(P256, G, 0x7FFFFFFF800000007FFFFFFF80000000, q2, 0xFD1DC0F1A19995EE63BDD49E12C701F872956CCC020314C0F725EDEF1F5093BA, q3);
    var q4 := At(0x8748C7D085779CD58A8899E9EDEAE71B210C293B42286C1CD5DA5CD76D1D1BD3, 0xED9665185905B41DAB7F4487CAF56539C968FF826BE42303B0D2BC6A71773D50);
    Adds(P256, G, 0xFFFFFFFF00000000FFFFFFFF00000000, q3, 0xFFFFFFFF, TIMES_FFFFFFFF, 0x298C6EAFAF03DEB3C6D277A71650C550C8A87644E794770945C8A4A4F7B828B1, q4);
    var q5 := At(0xCD2299C359DA198339545AB0E4ACF9AC434BFA00EC13FBAAA5393692534D5FDE, 0xCB8A2E5D2E4445DFBBB7D15674B5E1B9830E3652AE2434E64D265225BF8342E);
    Doubles(P256, G, 0xFFFFFFFF00000000FFFFFFFFFFFFFFFF, q4, 0x7BBD682CA56C620E51834596D63C8A983BD853D89D0AE8EEB7A9F016E8DB674E, q5);
    var q6 := At(0x5DACA3C94A36CA1F4A386F1C3436320EC5BACD10F8F0E040F58C88A3698ED064, 0x507E2132EBFDABCCA90959E18AD690A91BF05E649F3F44A9D6D4CFBA84893E66);
    Doubles(P256, G, 0x1FFFFFFFE00000001FFFFFFFFFFFFFFFE, q5, 0x273D1D57D84D64783D0B1759CC9AE412DA7C982EAE81947618E6D74856E416EA, q6);
    var q7 := At(0x34CB3AECA10FF090D45FE5E5902EDA843BFF6D55D0866FB92C87CD1B81A24469, 0xEDED54068AC147D3E7D6AE2C7906D4259C8BF9F5F11934EA7AD2837435149E3D);
    Doubles(P256, G, 0x3FFFFFFFC00000003FFFFFFFFFFFFFFFC, q6, 0xE6A5A90758BF835ECFA748EE848F56960CA416CE44BB2BFFD4283C59DB2B2704, q7);
    var q8 := At(0xD00EE15AB4C2E790FDE88CD7B319B331D46CF85545E16EF375C54985095D505A, 0x7CA35826D4CA6E355BBFEAA0372113D8DDBA7A58B9D218C5C9C7194D02970C43);
    Doubles(P256, G, 0x7FFFFFFF800000007FFFFFFFFFFFFFFF8, q7, 0x7807828583C92F8F0A183A3770FF79E3404C083EBE87EDC35FAACDB22BD3DB13, q8);
    var q9 := At(0x78303515700E6722FA41F5F547C71F42CC989D6D59D8A7D00C2C7AE070AC4366, 0xB0E533C9E15BD3B02346B0ED40CEED89D019B432E164A2A246CD95A4B2F328B3);
    Adds(P256, G, 0xFFFFFFFF00000000FFFFFFFFFFFFFFFF0, q8, 0xB, TIMES_B, 0xF858BE3EFA21F88D048F14D6B3C99ED05EF432BE8BD5F68AA394D93736F721C3, q9);
    var q10 := At(0x30F524D4B0C6A095B27B9532E58AF91456A5229A1E9F25C98DE00BA9D79CB7D0, 0x91E9218E46C08DCB3DFE5CFC19B116261AF55E9F0CD927505781C3549123304C);
    Doubles(P256, G, 0xFFFFFFFF00000000FFFFFFFFFFFFFFFFB, q9, 0xC5B005DC9624A5E46FFDBD3D9759EC611FB2FE356615359D8356D5FFF090BEAA, q10);
    var q11 := At(0x1AEC21A4E29FB72914F903855CE5A78142B8E889DB00078EC2E24C2B2FA7EEAA, 0x855CBAEF02DCF13B1129003733996809B10B699F39FAB30E377DCC1A0200E8F9);
    Doubles(P256, G, 0x1FFFFFFFE00000001FFFFFFFFFFFFFFFF6, q10, 0x8CAA2F7ECE2703143018C8DA2E07C0B1F1CAFD6841ADF37482B3261D38B9E9A4, q11);
    var q12 := At(0x93BECC886AFA689B744C94012578F800AE1D6295F677F50152C2E260F030BF32, 0xC774FE5CFF4E0A9249880360266B0E24CD2FE71DB9F3468ABB5C348134BEFF03);
    Adds(P256, G, 0x3FFFFFFFC00000003FFFFFFFFFFFFFFFEC, q11, 0x3, TIMES_3, 0x3EC5B2AFC01DE892B3A3F4190EDDC8D30AD7CC5764E1EA066AD5EB262A8B727A, q12);
    var q13 := At(0x2AD8057E55C876BCC9FAB533B74A82CFC775BC8CD4336D0567836C9DD4783636, 0x6B967EC9BEF09BD25808C29EB1A2BA1A1B38ABF1DB5708BE6F61568291440336);
    Doubles(P256, G, 0x3FFFFFFFC00000003FFFFFFFFFFFFFFFEF, q12, 0x674BE996A79B1FFA91230F8457289247595753941F964900DA839DFEAA64D097, q13);
    var q14 := At(0xEA071D57A6E452BDE848B0D819A52190D80B53FBA3A09A2E38E5788B85099BB2, 0x18303C1EAEE5B4645D0746417B41F1FB3D66C55709A0727E55B7FCB87DD40AC2);
    Doubles(P256, G, 0x7FFFFFFF800000007FFFFFFFFFFFFFFFDE, q13, 0xEE5E7E6600DE627F082365E48C6F6688CA2C9EAD6D077753C293089BD937B41E, q14);
    var q15 := At(0x5C9A9D9500BC17CC301D541815F139976A688F7F2BB306A0F0C110448C337AC3, 0x3F6E98B6FD2051244D3C6F5E8403F83A54C7845C24E131B17D44345A777C5CFF);
    Doubles(P256, G, 0xFFFFFFFF00000000FFFFFFFFFFFFFFFFBC, q14, 0xCD91CC334DB87C39C7CE70CFB2F30B7C6860531FB6369667B92DF117F1189EFF, q15);
    var q16 := At(0x5CF08CC89F937424FDEDEEFE87F922ECCF0A7C7A56664697A0D59104665A557D, 0xA454E2702F10DEFCC8C056A034555546A3FE8B5EBCED47A47E3B715F1D6D5EEF);
    Doubles(P256, G, 0x1FFFFFFFE00000001FFFFFFFFFFFFFFFF78, q15, 0x6A87849D55621A0D54421C8BC664857F96AD67B0E6DDA85183CDC7FA9657308D, q16);
    var q17 := At(0x9A41AE46DF88895208AC03061F03C8A6D1BCF0FCDFE9A375748ABEEB460F7B0D, 0x6CC0FE1189E109DE6377E648B9ABA3EDFE2AB207DE33B611D13FE615CCBA3AC3);
    Doubles(P256, G, 0x3FFFFFFFC00000003FFFFFFFFFFFFFFFEF0, q16, 0x23DD65F27FB8322EF0AFE44464CF5745F641339DE1AB69269D1BB29305DC990B, q17);
    var q18 := At(0xF4CB17FB0F71F3BA8968EB52B42AB5DAB57D98871E1FF8F126EB04C40384D64F, 0x8FD1EAB70C0E9481787F2B7DE03748FDB590F56744727679DACFB803391FA053);
    Adds(P256, G, 0x7FFFFFFF800000007FFFFFFFFFFFFFFFDE0, q17, 0x7, TIMES_7, 0x93E27C95E470ADC6B307F50FF2DF73D45FE5D3422493AED9B1A59A50FF3FFB3C, q18);
    var q19 := At(0x34C6411818E018562416CE796C0FA0880996E88A226A373AC70233A6CA5B4929, 0x3194EC77203B8F7BDF664E910439B090CD4D698684609C75515FA72159C036DA);
    Doubles(P256, G, 0x7FFFFFFF800000007FFFFFFFFFFFFFFFDE7, q18, 0xAF4AEBF985CFA16BA0A6D619D9A6E023514F5BB08C62D76B0420577C88407F52, q19);
    var q20 := At(0xF59CAB9C200CD1032B9B790626393051BF4023EB730F6AD1DD44A5AA650FED5, 0x642690BC9F44EB280F0F50E38538F831B4FDC996D43E304618AF9F66F6A9FCA1);
    Doubles(P256, G, 0xFFFFFFFF00000000FFFFFFFFFFFFFFFFBCE, q19, 0xAD5555A05BCE9B2281EABCAB4E0AAAF83BECA658B0C6B730BF3E204F948E8DA0, q20);
    var q21 := At(0xDED7AAD47BE12AAFB7BF29634E6F67BD135F7202B3534AB25AB6EBB40DE80B67, 0x9ADFE0331C072C3C1B22C158174D3DDB335C7D0C58B71CA17E87D76F99E5A08A);
    Doubles(P256, G, 0x1FFFFFFFE00000001FFFFFFFFFFFFFFFF79C, q20, 0x483DE7956274D82C64F1A4DC18FCCD7E45B35343F872E56A8A8BEE2D07C8D126, q21);
    var q22 := At(0xFB327112C18DD4F830271A97633B763B80042C8057C41681BC26F8833229B4C6, 0xFFB0443282EC4842FA685EDAF68D2983AFC6BC55A87A00D7F59BA6E9B55F84FE);
    Doubles(P256, G, 0x3FFFFFFFC00000003FFFFFFFFFFFFFFFEF38, q21, 0xAE3E2903620C37D55D0EA6B3E1FC67D79E179EAA446F69C274092307B5504D8A, q22);
    var q23 := At(0xA3F8B20ECF12853DA3B2345F0F6BD7D4CF505BA23DBAC958A81451666CF8BBEE, 0x7B3FF85632DAA06AF862BBF259FFB1610CBB118197FBF3135B6C42BB1AA7812A);
    Doubles(P256, G, 0x7FFFFFFF800000007FFFFFFFFFFFFFFFDE70, q22, 0x57F70416236071624D21878E8AF0182CD0D4C71067DD9430DCDACF3A52C7F258, q23);
  }

  lemma Chain12()
    requires Sound(P256, G)
    ensures Multiple(P256, G, 0x7FFFFFFF800000007FFFFFFFFFFFFFFFDE737D560, At(0xD1E4D7D12731EB4DA69295936AD9070A1CBFEE48CA03F46581CF419309A1264F, 0xE798E35631ED5F8436B851909ADF9F2C5AC00CCBBC3C086527A326C3F791F42D))
  {
    hide Sound, Scalar, Multiple;
    Chain1();
    Chain2();
    Chain11();
    var q0 := At(0xA3F8B20ECF12853DA3B2345F0F6BD7D4CF505BA23DBAC958A81451666CF8BBEE, 0x7B3FF85632DAA06AF862BBF259FFB1610CBB118197FBF3135B6C42BB1AA7812A);
    var q1 := At(0xC0ADA0B46FC24D257720C969D3596ABB958CB9F20F5D6646117A0064B9154701, 0xC820E63E46E573D3854053F4D40092C83D836BB89C6CA9BCD499745B0E218296);
    Doubles(P256, G, 0xFFFFFFFF00000000FFFFFFFFFFFFFFFFBCE0, q0, 0xDFE0B4214974E9710E5D25CA2AD23F73B45B5E6C55154DC395F6352CB7110447, q1);
    var q2 := At(0xE1686235D51426EFAC8BF6724273287AA9709BC1AAF5EFB11ED877012D4745A4, 0x3CC26C3FEEE6F4049D4FF623D963693A98885D1A6806F3FFCCF907EB5DD49898);
    Adds(P256, G, 0x1FFFFFFFE00000001FFFFFFFFFFFFFFFF79C0, q1, 0xD, TIMES_D, 0x5458B5CA9A63F1DC4D89EB154F1C63A2F1C664D7381C8374794C960EB2990141, q2);
    var q3 := At(0x4B0B40A92ACFA59B55A612346950BF02F435CF180332754699C8AE9180FBD5DD, 0x2656F5919E1BC01C76CFE4CB1CD15F479123BED24BD0AD9DC93437706744DDFD);
    Doubles(P256, G, 0x1FFFFFFFE00000001FFFFFFFFFFFFFFFF79CD, q2, 0x63D5A27D4896B73103D1F9742EE5AA39C4DA5924885965E0B8EC8F06163C238A, q3);
    var q4 := At(0x8AD4C489E41523D35402E3F393632E15F4BEFDC1A28961418C53D4202CB75346, 0x6A42FBDBD479670190E3E4690A2A5913102B7312B5F2E72CF9A4E1D009ED4958);
    Doubles(P256, G, 0x3FFFFFFFC00000003FFFFFFFFFFFFFFFEF39A, q3, 0x3F974BAAF4C2973CCB20975D94F9F837F4DC1C32A7C8352B003AB6ECEDDC74, q4);
    var q5 := At(0x3E4E6CD947C926C3DE872F9D56B1F77E8DD6339699ABD15B9E283A0322C2BE25, 0xB442C8B7D6BB3F6EDD8B223077455234A17F53D97679968D1247DCED3291533C);
    Doubles(P256, G, 0x7FFFFFFF800000007FFFFFFFFFFFFFFFDE734, q4, 0xC6DC45490FFFDB39977914C7F9C6C2505DB3B6AD5AF3B70D1B99BBA62A75D591, q5);
    var q6 := At(0xD2ABB5529B83E66743A3A23D1B11E28BB217A82C4A9E8078083ADB191E0FA468, 0xD5FEA76D0188346239BD0E658E255E53DA95E5ED6E2FAB56CD4A22721FD5D8CA);
    Doubles(P256, G, 0xFFFFFFFF00000000FFFFFFFFFFFFFFFFBCE68, q5, 0x5EF2B28E44E0411F40C283970043BFDF1CDA0D5116B44CF5553B3F754A6A3C08, q6);
    var q7 := At(0x723B207732B55C05256BF207C629892CB2CFCBCE93E0BA471BA5A0B60607D05D, 0x4202EF0EF6651E8DC46616B8C1A6EBCF4BB45F3F2DF03B3E3506D5656777E33F);
    Adds(P256, G, 0x1FFFFFFFE00000001FFFFFFFFFFFFFFFF79CD0, q6, 0xF, TIMES_F, 0x86C5464009B7AE58183099E5238FDA859187941B1B72AFE626647288CFE9FA5E, q7);
    var q8 := At(0x7C649CDAA274F2D85FE4D662FF27E4771806F0D760EDBD634E5BE1C172A27EB2, 0xC17F4FF35CAFFA5BA435A84DF737119F576F3BE6A16A0E90A5FACF7679D0EE4A);
    Doubles(P256, G, 0x1FFFFFFFE00000001FFFFFFFFFFFFFFFF79CDF, q7, 0xF2E52CB7A0DBF5B7EF55F9954FDC0B324A0F39211CD3744D0693B7CB2962402A, q8);
    var q9 := At(0xA7493DD58024D4123D3D0D864BBE17328F2917D55D480AEC657DF9087A2146EF, 0x8284F3CE7C42DD761E69D552B1C7763E991B52EF284128D4611C4D64A2A44233);
    Doubles(P256, G, 0x3FFFFFFFC00000003FFFFFFFFFFFFFFFEF39BE, q8, 0x913748F5F4EBD40EE833087D5F049A3160D91A7E477EF3D255FF1D5003941E44, q9);
    var q10 := At(0x5CAF1EB38B4A62E0EEF457CF620E99B9F85B4EF6D40E155085585A4E95BCE7D6, 0x2044165B902C2B0242FA9E4120553E32AEFC42A13851713A32FC531FB760C256);
    Doubles(P256, G, 0x7FFFFFFF800000007FFFFFFFFFFFFFFFDE737C, q9, 0x67CD271077EADFF61D760B28C71CB39DD0643C50CF45455FE93906276C75EBD1, q10);
    var q11 := At(0xC43BD57E7B88B9437C3A76F73E2B93FFAB8BD2227BC323FAF1F9831B085BCE86, 0xF82C8B9E9DCBE935FDEE529DA7606688E04E78C0C070AF81BE3C7219E65CEB0C);
    Doubles(P256, G, 0xFFFFFFFF00000000FFFFFFFFFFFFFFFFBCE6F8, q10, 0xC39CD865A45B2EA35158CEF71B74603DD89F0F459B9F5A8BE4FE8371419211D1, q11);
    var q12 := At(0x6AE4E348851624E801B4F70613BF87374A82054CE3D76D78528E24B5149EBE48, 0x132A37974F57AC57480049B7E659C7583B211A4B1C3516A42CC735EE620C4146);
    Adds(P256, G, 0x1FFFFFFFE00000001FFFFFFFFFFFFFFFF79CDF0, q11, 0x5, TIMES_5, 0x26B3225F315BD414A1D6193962B3F71BECDE70F3148F1E361B4FF457FFA12F9B, q12);
    var q13 := At(0x8D865CA64320C38E6014FB14F0105A055D42CA3AF10C3C1AC1A578D326DC4C6C, 0x9E3743D1310EDA639DB861DB6E819D5B5FFE94B93E777885550478B25B2C2AF6);
    Doubles(P256, G, 0x1FFFFFFFE00000001FFFFFFFFFFFFFFFF79CDF5, q12, 0x64D0D38D31F6655D7305CDAA081F8B3588F2EE7037FA56584ED2C138EFA37B6E, q13);
    var q14 := At(0x1B17B11CB2FB8D3DF9EDA6A5C5D9425C4CD1A560B1FB8E9477702496F48FF36C, 0x6072C070EDECE208332902A349036F4AB92B6F0D82D35E11D1D83BD515172359);
    Doubles(P256, G, 0x3FFFFFFFC00000003FFFFFFFFFFFFFFFEF39BEA, q13, 0x34C0B6E689E3EBAA4A2CECE3B57C7A923EF24ECB819A1795B6AA6193FA78EBCF, q14);
    var q15 := At(0xC7637564581631A631B43ADB0716B7783B9AE648B4F32D5B728449F5DF7F4181, 0x94B0014F13858D02E2153E7D3B51A65B0EE5FF78CB9E689987690023A967B6BD);
    Doubles(P256, G, 0x7FFFFFFF800000007FFFFFFFFFFFFFFFDE737D4, q14, 0x4C5CA3872A730E7756B42EDA7C1F57ADC499839BD7B913B70013B2686405C3A6, q15);
    var q16 := At(0xF8C207EAE1CE21783814A495E85CEEBC2C50ABD30EFD75C072E912E41CE01805, 0x76713AE63AA662FB422CA302BDCA17C510D572ED77394FA8E879A1C2B80AE7A7);
    Doubles(P256, G, 0xFFFFFFFF00000000FFFFFFFFFFFFFFFFBCE6FA8, q15, 0xD1CFE17BE47F81023EA9182BAD5D60EB41F0F4B06EC8059794BC7C5DFB986D92, q16);
    var q17 := At(0xF1E0E5C278B44E07ABBAEE1BF93FD963841CF0BFB019288F450173CA7DD91C87, 0x4A12C305E065CD7B99D9B2DA631983B74A751FAD83971CA60F167A780C088DCA);
    Doubles(P256, G, 0x1FFFFFFFE00000001FFFFFFFFFFFFFFFF79CDF50, q16, 0xCB7B5666A620A0B8AB8C367F77E6A0258B54580D219D4454FCBDCF60B56F463B, q17);
    var q18 := At(0x66A9C992903F18467F22E9EF849AEC9FD8A9028B2AF7E0951C25460654E5329, 0x4114EBE60DC7C04CE187D883626CF27DA496440D477560CD930A67617C6406C3);
    Adds(P256, G, 0x3FFFFFFFC00000003FFFFFFFFFFFFFFFEF39BEA0, q17, 0xB, TIMES_B, 0xF7C31BE79F5DB46EF596741BCD16138186C4465B7C7A27F2903331F75B4E9B3, q18);
    var q19 := At(0x9466635111245CDF036A63AE28D4DB375A26AF5086E74DA57B7284CDF8506C65, 0xFDD17A3902012890C00339743543A9E7991E388B62E0C7347EDAAA4E244BAAD2);
    Doubles(P256, G, 0x3FFFFFFFC00000003FFFFFFFFFFFFFFFEF39BEAB, q18, 0xE49459C373C5DBA80EDDE36F7347197DD8CA4CB493790182F5E3D808C610246A, q19);
    var q20 := At(0xC799C88297AC2D1373F6AF0C2F449A0E35BC010467BFFED13D65750ACD50932C, 0x2B83863F11A28958DFEEB0332EAF5C90EE32F05E9C88E74658FB1B9043D9BAC1);
    Doubles(P256, G, 0x7FFFFFFF800000007FFFFFFFFFFFFFFFDE737D56, q19, 0xEDCB40B3507486F3F28953BFCCC450A88BD60D32F3732F1F0CE7246D95BF2B27, q20);
    var q21 := At(0x3D5AE3AF25CDA884CE422F6C4C733E1A5A6B49082E41334EB4EE48EF4D48FA36, 0x858F1EDB1C7A1A2060FCC745A3C96F5102FDF8D0B5C1B446A11C913BE0E82C36);
    Doubles(P256, G, 0xFFFFFFFF00000000FFFFFFFFFFFFFFFFBCE6FAAC, q20, 0x95A16D6B5CED6ECB415D706A506328DE77B3CF0AE1C65C6677CCAEEC3BA1466C, q21);
    var q22 := At(0x5FC74CD181F0C1DF01D4F3FE40F379526F9DF88020633994799ACECC3BFCAF14, 0x9486EC6AD6954A9DCDEC1706767CCEDB6DC7F3E4106532A0049BCABB9A5CF638);
    Doubles(P256, G, 0x1FFFFFFFE00000001FFFFFFFFFFFFFFFF79CDF558, q21, 0x8BD712D997FB4900C0DD77CC654ECA64FF73B31DD603D4F3BAD0A04CFA8023EC, q22);
    var q23 := At(0xD1E4D7D12731EB4DA69295936AD9070A1CBFEE48CA03F46581CF419309A1264F, 0xE798E35631ED5F8436B851909ADF9F2C5AC00CCBBC3C086527A326C3F791F42D);
    Doubles(P256, G, 0x3FFFFFFFC00000003FFFFFFFFFFFFFFFEF39BEAB0, q22, 0xAD308154074AA9E2D7EA40C01A4341B7858DD67D1861225BB956B691667787CB, q23);
  }

  lemma Chain13()
    requires Sound(P256, G)
    ensures Multiple(P256, G, 0x3FFFFFFFC00000003FFFFFFFFFFFFFFFEF39BEAB69C5E0, At(0x2C46A29AC0C6DBDB68424248031D83CD29104F458B47561EEF2E813BA9605A4B, 0xFED79016280D40FD51041C29D33F0EB78A2AAB4534B7F6DECE7D17690F1B148F))
  {
    hide Sound, Scalar, Multiple;
    Chain1();
    Chain2();
    Chain12();
    var q0 := At(0xD1E4D7D12731EB4DA69295936AD9070A1CBFEE48CA03F46581CF419309A1264F, 0xE798E35631ED5F8436B851909ADF9F2C5AC00CCBBC3C086527A326C3F791F42D);
    var q1 := At(0xF7282BA39E5DB687ECF291B176123A7B5EA6D101464E02B148F236DDDBE06BB0, 0x55201B1614B46074C1BC85F53CE53E9436DB7045D0E86840D309E2BE62C17606);
    Adds(P256, G, 0x7FFFFFFF800000007FFFFFFFFFFFFFFFDE737D560, q0, 0xD, TIMES_D, 0x74BBB8AB255DA8FDED5F5B7EB3362437A8E98EF48E014039C57733918383C818, q1);
    var q2 := At(0x712882C6F5C608CEFF86C68358099492BEBB14C41242CF2C12A46FBD41A7FD26, 0xEBC802F7C048B4C1C55B0BD20A483B3826015FA160BBC02DE00A2C5D7B88419A);
    Doubles(P256, G, 0x7FFFFFFF800000007FFFFFFFFFFFFFFFDE737D56D, q1, 0x1687868D0C3C942A86F6A2F6BC2B0B0014DA5B25D28DE6968DD58EC932777EA8, q2);
    var q3 := At(0xE391A696C7AC0ADF4F72004A60B8A6C7A688173CB829F61F9C85B8E0B62F4D25, 0x4690B02AC2D58CC655ACA1095179D06F7619B6F7B8E05D568687ADA93C6409B7);
    Doubles(P256, G, 0xFFFFFFFF00000000FFFFFFFFFFFFFFFFBCE6FAADA, q2, 0x2E1D6D99905CA613107AE06AD50B69EE23145B1A91E4AFB8A2CA74B9207129A5, q3);
    var q4 := At(0x99A88BBA591B167F364E78FC101B386FD435E67C268C312231949065FBB5AE87, 0xB62C302F768C6006F5B7E5F6F591996D7EE34D94B0D1514FB19402DBB8816E99);
    Doubles(P256, G, 0x1FFFFFFFE00000001FFFFFFFFFFFFFFFF79CDF55B4, q3, 0x4CC2CB0832313F941FE6FA205E66482B5C95E94B784F8CAD768D71554E8DD58C, q4);
    var q5 := At(0x2367EE2DE9EB32B9988C9C8A866C32B30C0AB08760C64B39A896AFC2680E0A04, 0xAB7E4469A0EA3C594D9DA618B84FB9A30CB52AD40E8E33902654E8C111533C50);
    Doubles(P256, G, 0x3FFFFFFFC00000003FFFFFFFFFFFFFFFEF39BEAB68, q4, 0xFF4CE11B3ED7035CE9A63E20E84CB5BE9BF80DAD1AAD2075A1C8E6947FD04344, q5);
    var q6 := At(0x57815B5F9F552A38439AE6E4DBB6941A6FEBD67246A186AF12536299C6B60672, 0x3192617479071E47753AD1C071A489242869769B25260009182A694DDB2E2580);
    Doubles(P256, G, 0x7FFFFFFF800000007FFFFFFFFFFFFFFFDE737D56D0, q5, 0x6EFE928CF319E8487F1DE3B99B0E3F100002ADBC41E054326A05C304C633153A, q6);
    var q7 := At(0xD1605C7F98518C3BDC14099138AE10F58E00559A537595BD0102D52B4CB75D94, 0x61582C41E6E345A428575A5BE939935A2A1735D0A001D63A1921C8F996F11E70);
    Adds(P256, G, 0xFFFFFFFF00000000FFFFFFFFFFFFFFFFBCE6FAADA0, q6, 0x7, TIMES_7, 0xD8864CB40606407DF152356203494B884F5C90F238523EF437945ACD9E6318C8, q7);
    var q8 := At(0x324626B2A465F61D1D5335EFA22AE562EB230A8431F0CC9C009C00D4FE34985D, 0xED335E389B3B10C230D9FBC9A5617C692D22B0ADB969E71DB302C73987FB7A1);
    Doubles(P256, G, 0xFFFFFFFF00000000FFFFFFFFFFFFFFFFBCE6FAADA7, q7, 0x328311006166DA0E2D955527C15989DCADF4E3FD67E2FA1041C595D4D5BB5318, q8);
    var q9 := At(0x5480132EA18CB477BC329BBD68F50AFCDA3BBB8677A2D7EE7EFBFC0FEC3350D, 0x1F877A33C066A4CBE14E90B9A08FACDE10C9B147067F69FF82510001DF2CDF19);
    Doubles(P256, G, 0x1FFFFFFFE00000001FFFFFFFFFFFFFFFF79CDF55B4E, q8, 0x7E087002E55CAE077C9697C99E58A03E348C2CF038320CDADBA6FDBDC2ABDA18, q9);
    var q10 := At(0x9DA6D204A90C97E83677BD3ABDD8E190F42F42A9B651C441E08DB4811B49A35E, 0x2F16762C05AA3F6FAA7DACA4130D6C11AB881FCDBDEA00A99534145F197CA6B3);
    Doubles(P256, G, 0x3FFFFFFFC00000003FFFFFFFFFFFFFFFEF39BEAB69C, q9, 0x874749FEF062ABEBE4FCD8D6DE89523C51B44716B020F206D464B45CEBD0227D, q10);
    var q11 := At(0x3EDD7D6D5EFB143F842AE7A29746869CFCCCF9C4AA741E2EAF73634CFB42E855, 0xECD4A5D53F7ABDD49B7BDF8E93893BDB26C6611A69B12245A71B93919625B9DB);
    Doubles(P256, G, 0x7FFFFFFF800000007FFFFFFFFFFFFFFFDE737D56D38, q10, 0x54F55F77CCD03EA178B1A9B03BC1897CEA9B8351BE047214C7608B24E0DA4759, q11);
    var q12 := At(0x6EFD299CFD2F57E13F638662F173FAA6CD9BD90DA24AAB64D0445E0FAF5681A4, 0x22717323552BF26C834732D5E877997485FE28E2EC15CD3E8332088CA1C158A0);
    Doubles(P256, G, 0xFFFFFFFF00000000FFFFFFFFFFFFFFFFBCE6FAADA70, q11, 0x4885C3C7BC7C14360FD64185E560F8C26050045A0F0610027E65651B1BFE0FF, q12);
    var q13 := At(0x3C3102F7926554D020FB7F4528D4324707AB6FA19E70ACE673939DD1669588A1, 0x81B2ADCE94B3CCA872355377EE778F6CBD18FEC3F6E0224C553F134F81401F1A);
    Doubles(P256, G, 0x1FFFFFFFE00000001FFFFFFFFFFFFFFFF79CDF55B4E0, q12, 0x8634CDCEA3AB83D91F73201F7C040538893B241096A2D8DC4F6BE8BCF976D5F, q13);
    var q14 := At(0x7409DD5BB6DD49A33782AC3F8555C2895EEFF424D4041CF6DA72F36CD0D64AB8, 0xC2F33621B3DC26720ADDAB9BADB7ECAB9CECCC19E429BFA2FF2B33AE57058DE1);
    Doubles(P256, G, 0x3FFFFFFFC00000003FFFFFFFFFFFFFFFEF39BEAB69C0, q13, 0xD4B8A440112A7EAFF2CC76448DC0A63235D74F68381153EF7D69722DA83E3CC6, q14);
    var q15 := At(0x906190C455F1999BE9BAF1609AC8A07033D3273C51381FBBE106E3134FD2444F, 0xF9145A5BAD2300264C3594E25C56DB384C0F465335761FC864BF0A0BC80B370B);
    Adds(P256, G, 0x7FFFFFFF800000007FFFFFFFFFFFFFFFDE737D56D380, q14, 0xB, TIMES_B, 0xCCA7C04A3847F61BEE093ED868848270DD9AB02CD202CC3636FFAF0CB51666BA, q15);
    var q16 := At(0xC746D556FBDDCC12B974F34D6444989A1E93EE8D2F4593A28893012435449DC8, 0x4F743D3C56CEF78D831A700CDF5F83FACC5AF9E1AFA2809CB2A565FFE322BB51);
    Doubles(P256, G, 0x7FFFFFFF800000007FFFFFFFFFFFFFFFDE737D56D38B, q15, 0xE02CF3E22F37777A9F0A291795186EDF86F76A830E192EE15156AAB6C19D43F6, q16);
    var q17 := At(0xC3255B52E3BAE2FA71066A87094F5EC7189C2B56362F4BD2F58A644AE77C3BFB, 0x6EBAEA82E3190AEBAE190CEDC0CD2873814CAE751201B227E84FDC8CEAF16642);
    Doubles(P256, G, 0xFFFFFFFF00000000FFFFFFFFFFFFFFFFBCE6FAADA716, q16, 0x853D6C45639CCB14BAF6F540083B6107E567C4C52849C7FE2CACBD06939A0848, q17);
    var q18 := At(0xB5C20ED77F322D6BF7B6B2675CDFBFBB8375B251D39E84DFEF37836E0C2D3C32, 0x56C0E75683597FC4B891115C4FAEE04E9D0837C8B7C2001F62505886C70D8DC6);
    Adds(P256, G, 0x1FFFFFFFE00000001FFFFFFFFFFFFFFFF79CDF55B4E2C, q17, 0x3, TIMES_3, 0x41C6DD21BD24E859532B0B27F97E97ACA986F6C398F7D713B6304C99449FDF0E, q18);
    var q19 := At(0x9EA323138C3021F1D1A58F22375CC3C5651BCB03DE5568AF3D9919999FA5EC7F, 0x4C00BEA15A3FBBB38DC9392F03868FE2C124140D165E59F90D5D9B7F9E24D270);
    Doubles(P256, G, 0x1FFFFFFFE00000001FFFFFFFFFFFFFFFF79CDF55B4E2F, q18, 0x3050F99B1337C62004E120E368B9C0F76B837CBA50537FF5E210843B7F72C84, q19);
    var q20 := At(0x6C91CA6734A570C2491E92CE87836823DAE578F99579BAF6347B651C79B06C73, 0x413AD6B4ECE5409AB15F0C9304DCD9153C5BA397655DE0707C7111F2723CAC56);
    Doubles(P256, G, 0x3FFFFFFFC00000003FFFFFFFFFFFFFFFEF39BEAB69C5E, q19, 0x359CB63DD575FE116D4334B14409AC9B98ABC4FBAE71C5208E980E73C5464763, q20);
    var q21 := At(0xAE394B3BB634BC3EE13E7ACA57FB126522004EC8720E8DB5582034B4993918E6, 0x5ECEFE9B5F7C9A3E2DEADA5A8854CFA1C5F4FDBBC5FB5EDFB36325D000A41355);
    Doubles(P256, G, 0x7FFFFFFF800000007FFFFFFFFFFFFFFFDE737D56D38BC, q20, 0x741D59DD266CF529F4C4D32CB6C774D98385E15D27764ACC6C6E572E4E80178C, q21);
    var q22 := At(0x7857A136EF18FDEF797D06C254201CFB97319EE2E511670FCFF6E7CDBCF9531E, 0x5754539D2DC58E4F0760C207A780900888E4698A2BF4E837DBC48770F9281229);
    Doubles(P256, G, 0xFFFFFFFF00000000FFFFFFFFFFFFFFFFBCE6FAADA7178, q21, 0x838C798BACFD36910554A1A9028AA094D8BD9B94695D0EE71AE95CDB81E6D87D, q22);
    var q23 := At(0x2C46A29AC0C6DBDB68424248031D83CD29104F458B47561EEF2E813BA9605A4B, 0xFED79016280D40FD51041C29D33F0EB78A2AAB4534B7F6DECE7D17690F1B148F);
    Doubles(P256, G, 0x1FFFFFFFE00000001FFFFFFFFFFFFFFFF79CDF55B4E2F0, q22, 0xA07BEDFC7B9EB7A05DBD8AD413513112744EA93A2DF8955FAA36E51BEDBB579E, q23);
  }

  lemma Chain14()
    requires Sound(P256, G)
    ensures Multiple(P256, G, 0x1FFFFFFFE00000001FFFFFFFFFFFFFFFF79CDF55B4E2F3D09E0, At(0x4C851380C8D72BF6D4B424C38C518165A337C5218E35CDDC7E4F2D97D0E854B2, 0x7454391454DE9C1D5216848FE1C8DC51BD0F8AB26FA202BA5E892D7519D1FA44))
  {
    hide Sound, Scalar, Multiple;
    Once(P256, G);
    Chain1();
    Chain2();
    Chain13();
    var q0 := At(0x2C46A29AC0C6DBDB68424248031D83CD29104F458B47561EEF2E813BA9605A4B, 0xFED79016280D40FD51041C29D33F0EB78A2AAB4534B7F6DECE7D17690F1B148F);
    var q1 := At(0x399A66A46ECF0C348D731DEFFFC7EA683893998F1C24DD013F163BE8052E6994, 0xB7E66AAF514467433FA48C0E3FEA1F08D4A1E4348E5074CACC53F66190CA5D16);
    Doubles(P256, G, 0x3FFFFFFFC00000003FFFFFFFFFFFFFFFEF39BEAB69C5E0, q0, 0x1D467FF2995A6F6E5A2ED712B05270245749299052686A56E16BADFF8933357, q1);
    var q2 := At(0x98264D08B10D9868C1F1D37DAB999279066354FCFB38C82D70A180D1E4FD7087, 0xB29BC827EE80893ED7FA5997CFC356B5E27051484829271F6B4B73D0E44F306D);
    Adds(P256, G, 0x7FFFFFFF800000007FFFFFFFFFFFFFFFDE737D56D38BC0, q1, 0xF, TIMES_F, 0xEE8AD5282F286EF901A803E423A9D26F5AB7859BCE204F3FFED8BB0348CEB903, q2);
    var q3 := At(0x913B962857A991A62CDBFCB451513315B8685997FC0956BA592C5756E37E63C6, 0x297994EDFD26D9486E66BB24DD0292FAE1F11302C737CD4500C5E964D521E1D4);
    Doubles(P256, G, 0x7FFFFFFF800000007FFFFFFFFFFFFFFFDE737D56D38BCF, q2, 0xA062B7B604D46E0EEC641B05BEA0471DB15E82688F5826C1C34637BBD3EDEC1A, q3);
    var q4 := At(0x17447F8B000CB8ADB9EF3E03A01E8AEA0FF0D1241BB9A660D8D59D9009B65720, 0x5C9BD4932F6B38101F23C5B85F078C535207E702BDA5A81B65FA0952596EF3);
    Doubles(P256, G, 0xFFFFFFFF00000000FFFFFFFFFFFFFFFFBCE6FAADA7179E, q3, 0x9FABDE1CEAEB992E80017B12D617AE37F2035299330091887021CEB827CCBB36, q4);
    var q5 := At(0xB6C88E89B8129B7277B414A5648A11F4F2E9D97A40526E22EE25B80BAC33406C, 0x7CCF333F633CCB065D76F4DA59C7E0076D7776605CA9DCD853F4A31991655779);
    Adds(P256, G, 0x1FFFFFFFE00000001FFFFFFFFFFFFFFFF79CDF55B4E2F3C, q4, 0x1, G, 0x230D7A4A3DCDA864775EB4FFE8F319D14834441848FC304AD231797811C1302B, q5);
    var q6 := At(0xC317254BA84A4BD587BA11B418A59CDFAF2C1F8F11B46F0639FD66AD9245261B, 0x62A7BFA2474C85A8C9974EFE929CD60C4EC8FDD3265498BAC720C79090AEDA42);
    Doubles(P256, G, 0x1FFFFFFFE00000001FFFFFFFFFFFFFFFF79CDF55B4E2F3D, q5, 0x5470A5C84B32E321637D2E208201A340A01FFECA339BD0AA80979C4F1170EC87, q6);
    var q7 := At(0x37BB41F89568CEF5C6CDD2E994CB1BCF272B106132F9E19F52686B3CE0DAE342, 0x85CB39907677067B8D01B78D67511EB1647628882AE01B02DA07CC24FC59EB29);
    Doubles(P256, G, 0x3FFFFFFFC00000003FFFFFFFFFFFFFFFEF39BEAB69C5E7A, q6, 0x7E0A3376D947900A7A41AA6D2F81B1952D4C5C95A3D6FBF1603466442E7F0620, q7);
    var q8 := At(0x7E6A7CD84F249D763A06B003098FF456B57FA8D78050BF86B6275D452773A44C, 0x1067C4BC316D219724468F96388FAE55921CFD6AD7E94820BF6FCE44199772DE);
    Doubles(P256, G, 0x7FFFFFFF800000007FFFFFFFFFFFFFFFDE737D56D38BCF4, q7, 0xE05D1F4553924FE6C8C2D7E3065B67BDE5D0C944415FEF1DE4EE9E5BB461835, q8);
    var q9 := At(0xC0C011EA3966C45EEA06AD310E7EEA14513BD10B558E47CF8D3FBB6C3561AD78, 0x3CB15E9EEB873F399B8642BE3FEA6FE85A73E2F6A5432017E0C56612730EB10C);
    Doubles(P256, G, 0xFFFFFFFF00000000FFFFFFFFFFFFFFFFBCE6FAADA7179E8, q8, 0xD6BE9E6DAEF03DA7F6225309237433FD6749D3BA48E55744D1086A32681A48B5, q9);
    var q10 := At(0x34CF5CABDA4BB9C7E79F11E446F0D4689280C9689422C35A7B9F450DF9567E24, 0xED47CC07B8C5765BC480E99029FD99F289D6DCE633E3BFC75C5CC6F810BBE0A2);
    Doubles(P256, G, 0x1FFFFFFFE00000001FFFFFFFFFFFFFFFF79CDF55B4E2F3D0, q9, 0x232359521F0E0A6D5EBDB8EDFEC99AA6083F85EE92D280A53CF82F10076328A7, q10);
    var q11 := At(0x24A4E168876DBA5E0C1F1D8F5D15AAF928F816C883E7655D5F0AA6C10BB8B0E9, 0x765097B71E7D145ABE357ED3F9FA889BA1BB184DDB4980951A0CD80334C94B7B);
    Doubles(P256, G, 0x3FFFFFFFC00000003FFFFFFFFFFFFFFFEF39BEAB69C5E7A0, q10, 0x92AA12E4AC71E4699357EF1F0E55C574A6608CED8C4EA4C0682E47CAB3E69345, q11);
    var q12 := At(0x1FE49046C2D65F9283C96B6D512E817B4DE0DAA6E0CC657DD8EFD7D82818F880, 0x7EC62CA3B3D23AAEC5A4D0972BE28EE9EDBF83D357E601700C75C670715BD3CF);
    Doubles(P256, G, 0x7FFFFFFF800000007FFFFFFFFFFFFFFFDE737D56D38BCF40, q11, 0x6F7CFAD88C4DC7D942B881E354B9EC0A64ECCDC2BAC97FCD94DFA9AC38C9A7E8, q12);
    var q13 := At(0xFB3956628924D1DFC7D8C0BB3304C08549592831C3C29B66BF169C3B054CAB1C, 0x790714368426357F909A98D2728B14CF4DB0F15D055B566EAAC6D4BA4B2C99FA);
    Doubles(P256, G, 0xFFFFFFFF00000000FFFFFFFFFFFFFFFFBCE6FAADA7179E80, q12, 0x81A10F28CFE03783A0DABC05E41E344EBD12670D02FBB9D29CB081631CA537CE, q13);
    var q14 := At(0x310D20CB8F38036AF5CC50104330E64DA88914750C31B568EE130138FEAD1DE4, 0xC034BF134F82A1375FB80C46AB0C06A406552DDFED08D74EA2605F3A3303A753);
    Adds(P256, G, 0x1FFFFFFFE00000001FFFFFFFFFFFFFFFF79CDF55B4E2F3D00, q13, 0x9, TIMES_9, 0x802F452C4A4A0B0C992923AC9F0F96F47D15158D568665350BDD4B6F9ADCF499, q14);
    var q15 := At(0x4989FDBBDCCAEC15457E1B060D559FF7DA31DC4F291E3DA443AF7E034C8AE136, 0x7F695F877B3052918C5A8DDBAEB2ABD151E59FD056E67ACCCC072E8C90EE27D7);
    Doubles(P256, G, 0x1FFFFFFFE00000001FFFFFFFFFFFFFFFF79CDF55B4E2F3D09, q14, 0xAA3974036DFDAAF916DA0C1878BDBAF4F0C5D807FDEF7CBB0941A7906A25AE06, q15);
    var q16 := At(0xFABD6301DE2BBFEA5EB8AE119C15146BE000574F647CCC4E7E96F6F7BBD2FC82, 0xA8EBA4BFDF0B026453B36124015ED213D5E075B5D9BE10DA9C7CF8AF39A655C6);
    Doubles(P256, G, 0x3FFFFFFFC00000003FFFFFFFFFFFFFFFEF39BEAB69C5E7A12, q15, 0x6DC11886394407BDB2EF635E777E9ED8ED91B622C027EA996BFAE627142C8AA0, q16);
    var q17 := At(0x42B5A3FB01F83B616464C5A0AF0972A84C4454C06D801E4038CAFB45BDB3C80, 0x85588C232E5B9A70BBFBF038EC0C83822ABBC3BFE50551221D0CE3BC1C0A6884);
    Doubles(P256, G, 0x7FFFFFFF800000007FFFFFFFFFFFFFFFDE737D56D38BCF424, q16, 0xEF2E267948D7D644B102EBBC70B1956D200F527E38572A59CC3D931E9978A42D, q17);
    var q18 := At(0xE445FE0772A9BB62EC4D4A0E611389DDB7F562D17BA8C64A6D2A49EBCA3A150F, 0xC76B8713907723A30EC55A26D1E0D7F2FC2C3EA91CABBD934A62DF73B66FD4A0);
    Adds(P256, G, 0xFFFFFFFF00000000FFFFFFFFFFFFFFFFBCE6FAADA7179E848, q17, 0x7, TIMES_7, 0xB04C0DFDCEFC8907AE2538988AF5F906D1BE2FBA368D71E37D3F415D035F88E9, q18);
    var q19 := At(0x726406F3191B90E2067EDFA7FBE371DADC5616A1E2251A0E35D60D00CE93C745, 0x400558DF93C1544D142709569D8F610F949549102DAF452041500FF38EA2A934);
    Doubles(P256, G, 0xFFFFFFFF00000000FFFFFFFFFFFFFFFFBCE6FAADA7179E84F, q18, 0xD8833940FE6BD86636EA00D04162F80381A184A21C5014203D4CF7987EDFE17B, q19);
    var q20 := At(0x308BD24B70EBAE7B5497E8509DFD775ED6E5EC9A7F25E58E952BBFF61805095D, 0x5169297AB4DB0865457F832C4438BB3F31B7F6F3E297480C00BED89333D5186);
    Doubles(P256, G, 0x1FFFFFFFE00000001FFFFFFFFFFFFFFFF79CDF55B4E2F3D09E, q19, 0x34E0318EF4CCEB053031CAF723EFABAA1BC24C69E63A9D8F8719E91CDE261341, q20);
    var q21 := At(0x34DCEE33140C18E064DFD2D26BFD4DFE770AABB858B527DA55020737702F9809, 0x93BAD2D9E56BE6A251F6CCBCACD0CBE997F92F90EFAC031F7732CDEAC30F51F8);
    Doubles(P256, G, 0x3FFFFFFFC00000003FFFFFFFFFFFFFFFEF39BEAB69C5E7A13C, q20, 0x3A2CD2AFBD4549342122C9254195397712E1AF3E5627B560E348DDAA5E7D72FC, q21);
    var q22 := At(0x8D77532550C42D38835EFED0F744BDEF2C5368626EEC8E63C671971EE96EAC4C, 0xAD5A4A4047936AAF21D58CEEF337C6DDE30FDB82A7D71387575466D7C53D109A);
    Doubles(P256, G, 0x7FFFFFFF800000007FFFFFFFFFFFFFFFDE737D56D38BCF4278, q21, 0x3A6B2691A24AE678755D189EF36BB58DFDB026E30BD19F13797DFD7179A3B256, q22);
    var q23 := At(0x4C851380C8D72BF6D4B424C38C518165A337C5218E35CDDC7E4F2D97D0E854B2, 0x7454391454DE9C1D5216848FE1C8DC51BD0F8AB26FA202BA5E892D7519D1FA44);
    Doubles(P256, G, 0xFFFFFFFF00000000FFFFFFFFFFFFFFFFBCE6FAADA7179E84F0, q22, 0x3558599714DB370696EA7BC059F970A5DE7E0324F9EA6E80E255BB38278FB845, q23);
  }

  lemma Chain15()
    requires Sound(P256, G)
    ensures Multiple(P256, G, 0x7FFFFFFF800000007FFFFFFFFFFFFFFFDE737D56D38BCF4279DCE56, At(0xF17BF6F5500B620C23E94FBA5FEECAFC8442C2DFABE40C92515648B46BF4E66C, 0x497D40EEE3B88406B2F350ED2C97C119D8EBD34B9CA56FE9FAA2BE137623A1F8))
  {
    hide Sound, Scalar, Multiple;
    Chain1();
    Chain14();
    var q0 := At(0x4C851380C8D72BF6D4B424C38C518165A337C5218E35CDDC7E4F2D97D0E854B2, 0x7454391454DE9C1D5216848FE1C8DC51BD0F8AB26FA202BA5E892D7519D1FA44);
    var q1 := At(0xABC316472F10AE371A5B2F81F586338564833D01AF9E2DE9BCECE8FFD3E38153, 0xC111E30C43766A9270466483C1F99692F8E424D0A6D1E0E45763E1805F7CB2B9);
    Adds(P256, G, 0x1FFFFFFFE00000001FFFFFFFFFFFFFFFF79CDF55B4E2F3D09E0, q0, 0x7, TIMES_7, 0x9EA6599F41D1C8A9FCCF2D88C3C52FF2E8EA9B922C6B84FFCDC8EC3330DF258E, q1);
    var q2 := At(0x9803D8EE5ED835C24ED71CA415FC880F0991869B56998D7A30801278180C0DD7, 0x7F09FEC9101891316572DBF6DDD66AFB4BC6366169E6D27A127CB07FC965279B);
    Doubles(P256, G, 0x1FFFFFFFE00000001FFFFFFFFFFFFFFFF79CDF55B4E2F3D09E7, q1, 0x6AD3EF0CC2ADB4848ACEE7F765112DB3320D3015D9FDD461D525103004F36882, q2);
    var q3 := At(0x34B37A63C571BDF8CB5010757621D93F90C64BEAEFAE469F440191BE05338180, 0x42508AE1EBCAD6B14B1C26715F0DF46BFBB16F47D50EC7C3ACADE5ADDC47E6A9);
    Doubles(P256, G, 0x3FFFFFFFC00000003FFFFFFFFFFFFFFFEF39BEAB69C5E7A13CE, q2, 0xB8117BA4CABCBF56C5077417A86C3C354D303A799C2DF5FBF25209E098C918E0, q3);
    var q4 := At(0x6A9A2E3775C8BADF5B9C93EA05BF3FBDFF18328BA19A77E7ABEF3B17136E6A54, 0x763847EAB56F588FB3B45C7D7F622442294E4EF4844B67E0C992BDF3C30F1FFB);
    Doubles(P256, G, 0x7FFFFFFF800000007FFFFFFFFFFFFFFFDE737D56D38BCF4279C, q3, 0xACBB7B07FCBFF86CDDE842B6B037754D56133796B4BC79076D291F552991FF54, q4);
    var q5 := At(0xB447D1351E89F5BF8DFFBE92A932B45ABEBE6E3BA3870FFCE13C611D7E6C53E5, 0x6E7C5BCE55ECFF7D9D514466BD443A2408E2450B771AC13718985CB4C47E79E5);
    Doubles(P256, G, 0xFFFFFFFF00000000FFFFFFFFFFFFFFFFBCE6FAADA7179E84F38, q4, 0x6569738ACCEFDEB7160996E63A592206EAA0A2FA33BD2B561950F524421A906, q5);
    var q6 := At(0x51A4486AAA58693D09405B5DA85795C94E3683415F79F8D5CB6AAACA0D12A53D, 0x19DD46DFD341597DDAB4EFEC57DE93C3B43A28AECA657B5E98BBE3E4E787079B);
    Adds(P256, G, 0x1FFFFFFFE00000001FFFFFFFFFFFFFFFF79CDF55B4E2F3D09E70, q5, 0x7, TIMES_7, 0xB3AAC044555B8DD72AD6C3061A55E5F3E68CF32383FA3D46833C44F6878A1DCE, q6);
    var q7 := At(0xCE6B18D2C17E439AF6FCF8A067F812269B1A0B2DE9F09E754890769CBE0A0A7A, 0x3B40D3A7D1A736B358F84B46B5EA317A19DCE734401B04C9EC6D51B5CC34144);
    Doubles(P256, G, 0x1FFFFFFFE00000001FFFFFFFFFFFFFFFF79CDF55B4E2F3D09E77, q6, 0x1E24E23BE43EBBE98EDBE61394C3A6ED01A7F4444AC3D5E4CCE9F95F1F1B30DB, q7);
    var q8 := At(0xE8AE31DDFF32121FA277545D8A32D6564B9A4A7B9B806450DE387CDA1C0191CA, 0xB0A491693CEA43BD90C8C8B874D134FD7E9C748FF1DCAA1C927F961323CF4362);
    Doubles(P256, G, 0x3FFFFFFFC00000003FFFFFFFFFFFFFFFEF39BEAB69C5E7A13CEE, q7, 0xAF7B1BEDF0C2915B1DA8D0B4B2C1A7744F9B9AEA67BF3DCD991F35C737A3050B, q8);
    var q9 := At(0xF3DAD445BCB603C3873ECA923BF6A87DC0A1FB98E2F59F2E38A580D38BEF0090, 0x9A15044CA1A7EA6AA71D19BF39FA3F2C205B72AEB828C4B8C387A54FDA43CE97);
    Doubles(P256, G, 0x7FFFFFFF800000007FFFFFFFFFFFFFFFDE737D56D38BCF4279DC, q8, 0xEAD75CF07542905A364F01948BE976AEF4A71F8FFD4AEA0C6334A6B6A53B30DE, q9);
    var q10 := At(0x17109359766B062541007B485CE14BB009FE2C2B329F8D06B36EABD4CA4EF883, 0x57C35146A1A4E5B4BB84E2CEE2995EA163A1616914E0FA26EA0F1A6B650A43B4);
    Doubles(P256, G, 0xFFFFFFFF00000000FFFFFFFFFFFFFFFFBCE6FAADA7179E84F3B8, q9, 0x978CB8E07DD87C56CC89FE8D74BCC0FA1A1F46C755CDA9D4569A19A28FF87862, q10);
    var q11 := At(0xA88E70B7B351052687C1B42D606DE49B2E8CB7CF369B6D0A7DD9619F96F7DA3B, 0x5B0062844596F5A213D9094CC105D935286FB43C7AE5BE82EC799A74617E9CA9);
    Doubles(P256, G, 0x1FFFFFFFE00000001FFFFFFFFFFFFFFFF79CDF55B4E2F3D09E770, q10, 0x1C9935001242E2AD61B239ED72DC2D076F2FA950D1F28B2213AF8E2BE74BB31, q11);
    var q12 := At(0x431DDDBE570449D1058ECFEA6167426F8962F097056454199C2B610AC035EF13, 0x30F4414EDD73140F985B14D04985D969DCE47AAF6350F7842899FD547F0B1B2A);
    Adds(P256, G, 0x3FFFFFFFC00000003FFFFFFFFFFFFFFFEF39BEAB69C5E7A13CEE0, q11, 0x7, TIMES_7, 0x83A30D9650F6258D14EB617429DCF3DF59A5C928376AA4424D673AD1D1F967E8, q12);
    var q13 := At(0x1E76D8E54486984EDFD37B8E38573D6D672861491A6A5E836A8FDB7DD8B84E77, 0x8E58390B3841A2F022FC8D72BFC6B16C7A7716D89EE4A5016EF9FABFBCF03263);
    Doubles(P256, G, 0x3FFFFFFFC00000003FFFFFFFFFFFFFFFEF39BEAB69C5E7A13CEE7, q12, 0xF99A98C677DF5FA909F310E9C1E4D2E4D7661C86650DD382F74D78255DBB4D17, q13);
    var q14 := At(0xE3BFC7DBBE3725BED6C62E067258481AF657C81974217EA2C81A46D55AE99036, 0x35EE06C5A15D51EB79304AFF9EB59BFC8B3E77328E7B29F7FFC220E0F979023F);
    Doubles(P256, G, 0x7FFFFFFF800000007FFFFFFFFFFFFFFFDE737D56D38BCF4279DCE, q13, 0x1F7BFCA8004798E8724C6E51D327AF0C8B9DCFCED075624EA910059C69819217, q14);
    var q15 := At(0xA2267936161D8C81C934696572792FE648A67C8521EA364D778C5A453CF4E56F, 0x23E95370A3E4DC0E125FEFE652B31CE50AFBA8AD5DBC9992FEEFF1A67601E895);
    Doubles(P256, G, 0xFFFFFFFF00000000FFFFFFFFFFFFFFFFBCE6FAADA7179E84F3B9C, q14, 0xFBE3F876CAD27EA18B7ED7D9A18E7277F5ECE4C2B3A80B2926EC17398DBD740, q15);
    var q16 := At(0x7FE52BB28D3A8526E753E9D1566618FE10188D20D123A4CBB11FAD3209C98BC9, 0x1121B8DAE100CB2672AFB7D25AE9406F015028C8B2986F5A452ECDB876C7547E);
    Doubles(P256, G, 0x1FFFFFFFE00000001FFFFFFFFFFFFFFFF79CDF55B4E2F3D09E7738, q15, 0xEA3BD5815214AC62BDD641C3C5EE11D4FF41787F86B8DCC7C880B123E93DA3DE, q16);
    var q17 := At(0x2B504DBBC709031AA41586B2E6F2BF7F12D797F9941537397EA25C9213A9988A, 0xE1606D04D83E3F772C45DEC815757E51496AE81A4C10A1B5C55BA02CA981E91A);
    Doubles(P256, G, 0x3FFFFFFFC00000003FFFFFFFFFFFFFFFEF39BEAB69C5E7A13CEE70, q16, 0x9F3A8F3F362A9495837039EAAB7F0190E4339BD6662D086FF4EF8A06A53792FD, q17);
    var q18 := At(0x83D7F747AB111AACD283859F95FF7C9500A071A1B0A16877BE9A622617CCBEE6, 0xF9488C0D47131FBE65D78DD31476E8467FA5713291F345CD39FBA645CEA646E5);
    Adds(P256, G, 0x7FFFFFFF800000007FFFFFFFFFFFFFFFDE737D56D38BCF4279DCE0, q17, 0x5, TIMES_5, 0x9ECC36B24158C0AEE2BFEA02460F53789E1443C6404892C3417AFA8DBDEE388C, q18);
    var q19 := At(0x7BBD0F608C7928BF0FCAEFC40349A491BBBFA62AD9FEA7D1FB69BC2B83913F96, 0xA52D30EBB0712BF2E77166EFD35A552873E6142C9A9F41FF242BD9DDAE0C5863);
    Doubles(P256, G, 0x7FFFFFFF800000007FFFFFFFFFFFFFFFDE737D56D38BCF4279DCE5, q18, 0x97A3EC5A23B71974A2F8008A754E8AD427B671BCAFEB52E4AE600B263A1EE532, q19);
    var q20 := At(0x51D2CF0B19A59A252034813FAF40539D58554064E0E2FEB0C21876DBE37D0DC5, 0xC14D62EE741F87CD8C0B0B162F945FF4E525FCFD4B63F3046D926C413FA1AD6A);
    Doubles(P256, G, 0xFFFFFFFF00000000FFFFFFFFFFFFFFFFBCE6FAADA7179E84F3B9CA, q19, 0xB069DE89A4981947B55927BE9B4AECCEEC0662F6FB4FE3ED1955D75938CAF41E, q20);
    var q21 := At(0x427C9B74AF5CB30863416908D2DA0B27A65CE6C64AEBFF45AF0D891F0D16C4FD, 0xCD2DD4C8C99F184BF9C089E4C3F966E0C8606412D5C1EC26100113DF92159D94);
    Doubles(P256, G, 0x1FFFFFFFE00000001FFFFFFFFFFFFFFFF79CDF55B4E2F3D09E77394, q20, 0x1E8B253CFAF950F1825D9A1BE4A3C1E12311491EBCB87A7E1F467F3B00A286EA, q21);
    var q22 := At(0xBEB48221BE1C41C5322BEBF2C6928F2A950D160AA591EB3F325E65B92E5DC213, 0x5F93F59D4EBA656A9B1211971E3CB0305FAFADDF25571B636628DC4AF4028F7D);
    Adds(P256, G, 0x3FFFFFFFC00000003FFFFFFFFFFFFFFFEF39BEAB69C5E7A13CEE728, q21, 0x3, TIMES_3, 0x457437D699BD0319386F311D3466D83F747B228FCCEBB41271859BCCC11C6347, q22);
    var q23 := At(0xF17BF6F5500B620C23E94FBA5FEECAFC8442C2DFABE40C92515648B46BF4E66C, 0x497D40EEE3B88406B2F350ED2C97C119D8EBD34B9CA56FE9FAA2BE137623A1F8);
    Doubles(P256, G, 0x3FFFFFFFC00000003FFFFFFFFFFFFFFFEF39BEAB69C5E7A13CEE72B, q22, 0xD179F413AE3BFD5AB16B4FA72C59C7CFF3DE907E09F0FE2E6784AA84FDD8DF5B, q23);
  }

  lemma Chain16()
    requires Sound(P256, G)
    ensures Multiple(P256, G, 0x7FFFFFFF800000007FFFFFFFFFFFFFFFDE737D56D38BCF4279DCE5617E30, At(0x400A1425E0A163DB3F99BFA5FE9264AF4FE47167A50A7B479A32D4E5AD7FA51F, 0x929355A79F1298075E0E3370207FBB9ABBD8C4C20E0D71E644833EA4E75AF6A6))
  {
    hide Sound, Scalar, Multiple;
    Chain1();
    Chain2();
    Chain15();
    var q0 := At(0xF17BF6F5500B620C23E94FBA5FEECAFC8442C2DFABE40C92515648B46BF4E66C, 0x497D40EEE3B88406B2F350ED2C97C119D8EBD34B9CA56FE9FAA2BE137623A1F8);
    var q1 := At(0xC36EE91ED515D43AB989458074F83C4F91E3167749B3B858F28E6386EBB672B6, 0xEB42B1F6EAFB4BCE7B4AEF5DF403DD994AF5B51F8338C8B7EF51DE2E4AEE45ED);
    Doubles(P256, G, 0x7FFFFFFF800000007FFFFFFFFFFFFFFFDE737D56D38BCF4279DCE56, q0, 0xF3651F1948B6DA881C2419F75D7CF4B68AFC8DF485801AC4B19C7755233C6F0C, q1);
    var q2 := At(0xB7683BB7439A44EEC834ADCC611FC91901A661C6ACD117DF993AEB88C3787051, 0xD17EE89FAE871FEC983A3D29587DF306D5BA8ECFCD14FB14419916F2CA4A5496);
    Doubles(P256, G, 0xFFFFFFFF00000000FFFFFFFFFFFFFFFFBCE6FAADA7179E84F3B9CAC, q1, 0xBE23251D063AF957B0C233D8CAAAD3245A71D35CEE8041A4DA77EB003FC49840, q2);
    var q3 := At(0x489896A1A073A10592FD7CCFA50B56234877908CEF8EAEF03490F1F1951A76CD, 0x52224B5CF59820E1E009D42B38C0AD2D16FC29C8BEC8F9EC135C00BDC44BD1F8);
    Doubles(P256, G, 0x1FFFFFFFE00000001FFFFFFFFFFFFFFFF79CDF55B4E2F3D09E773958, q2, 0xD6773521EB6E218AD74D5D85CC0A9A6F3F123DBE6A34EC9433B8A7639848538D, q3);
    var q4 := At(0x5EAA82CBB038BD4D76D695FF41EBF27F7D1F3D66B9D4E8AFA6ADA65080001ED2, 0x2AF0B52404A10F51388FD1D652663BC4AF3262AD8A903167065A90A8B18B6D0A);
    Doubles(P256, G, 0x3FFFFFFFC00000003FFFFFFFFFFFFFFFEF39BEAB69C5E7A13CEE72B0, q3, 0xC226BFBF1244DA56D3DEA59525961A1C5D7418BD2BF0657A343A360C1BEFD5F, q4);
    var q5 := At(0x12BB43B9AB7CC2DFEE8ED0CD3E46225B83F05B2A9D3D8C89BC894971480EF009, 0xD2C24BC33D0ECE46032A8C16751BF2AA5292CC492EE2F0743A5DF3ABAFD2E2A2);
    Doubles(P256, G, 0x7FFFFFFF800000007FFFFFFFFFFFFFFFDE737D56D38BCF4279DCE560, q4, 0xEA30A681EB3DB7191830E6B024DFECB258084F4748962CE8872C056B725175BA, q5);
    var q6 := At(0xE0FB4948ACE127702C81721947299854B41A1372C900C73857F386E94A5390FA, 0xE204AE528426DD3A51CF63A53A7F95DE00439F9380215D6ED14CCD0FEBD64A55);
    Doubles(P256, G, 0xFFFFFFFF00000000FFFFFFFFFFFFFFFFBCE6FAADA7179E84F3B9CAC0, q5, 0x1FA23C12F7F489104FD28394D71DFD3E52E79C226F047A8E036050030F87100C, q6);
    var q7 := At(0x41BB3AC398B6A41CAD96690E8C8C9AF556AB0376D68CF61B058B6DD55F4D0ACE, 0x45A6E44848FF1314294565B2F55C6FB97446E338B244FF312BCFFCCBFB271FB0);
    Doubles(P256, G, 0x1FFFFFFFE00000001FFFFFFFFFFFFFFFF79CDF55B4E2F3D09E7739580, q6, 0x3E65BABDF742DB1543FD1D74953B20323E296A4E9382D73BC6727DA54E17D646, q7);
    var q8 := At(0xB138C5F3C8CED28773B1429AAFE90F14EF0E441CB8F809FA0267D9A71CE7BF32, 0x4BF010B48F0084F59AE5A04ADCF69BB737C4B153926C0D87E4F14D54C5DCA36C);
    Adds(P256, G, 0x3FFFFFFFC00000003FFFFFFFFFFFFFFFEF39BEAB69C5E7A13CEE72B00, q7, 0xB, TIMES_B, 0x1312CAC5F28B33E2985BC82B0B56E1A5AA162421C2600013B3FD0AB46DE86A69, q8);
    var q9 := At(0x6A79213E0B742CE14414BC694EFBBCC9E120E09EA05F87D40712CE9B38D5053D, 0x3A89743E1023A857BB2BEBA9C1E5A15FE969D05F427E59087CC22A501821EF99);
    Doubles(P256, G, 0x3FFFFFFFC00000003FFFFFFFFFFFFFFFEF39BEAB69C5E7A13CEE72B0B, q8, 0x5A9F1BA5969EF050801CCB05B8CAC7546BCA3397533E42C3A50B5FB7D02DF229, q9);
    var q10 := At(0xAC7368779F65324E4A6F343357DD2360AB3AAF63CB70A8A538850563EFAD0FE3, 0x2D5E74BB15DFB99F0457E7EB90602DD9D6D8927AA5DA49D548563F25FE76F07B);
    Doubles(P256, G, 0x7FFFFFFF800000007FFFFFFFFFFFFFFFDE737D56D38BCF4279DCE5616, q9, 0xCDC19DC82EB10B2155835C8235FE531821923F97C8FC43A964BA8609194A54AE, q10);
    var q11 := At(0xDC987E1B9E7B5DBCF01F9F64D7A8FF32423CE48416711A5D2D6C36E5FB4A3C11, 0xC1F28FE87A275F30491551F38D85C1A902937947282632D3F26582F5CA065D0F);
    Doubles(P256, G, 0xFFFFFFFF00000000FFFFFFFFFFFFFFFFBCE6FAADA7179E84F3B9CAC2C, q10, 0xB033CE6598AB83A88DC9760121A06E42DD68EE9F47134A9901DAE0F2177874EB, q11);
    var q12 := At(0xE4663D5E08628B954F39A7253254D7CB728276141A8293D53296C18FF48AE9A9, 0xB35B62CAECBD25BF61F42C9AD05064C906736EB284A76A7E49B88296F0A2B830);
    Doubles(P256, G, 0x1FFFFFFFE00000001FFFFFFFFFFFFFFFF79CDF55B4E2F3D09E77395858, q11, 0xD42903AAED3848EF172B085C3F14709F205F0971BDEF7DDB72664202390A4DAB, q12);
    var q13 := At(0x5E05EF125FC5F7BF984F64C26ED21F5629355A5038ECF67CC1B0A68265931E04, 0x98A5A96D6A7AC9E943CB907AEBA641317C1214144C690A5D2EB682D50FE9B3DA);
    Adds(P256, G, 0x3FFFFFFFC00000003FFFFFFFFFFFFFFFEF39BEAB69C5E7A13CEE72B0B0, q12, 0xF, TIMES_F, 0xB7AB0F2A35236DB144B494C2FAADD556301529C2D38BCE2D3C87178E1C359116, q13);
    var q14 := At(0x8E28605C6C1BCEBFF5C6B01155D9C0CC20D5C9E43471BB573BB66197CBE30DAD, 0x1C1FE69FCAE7F266731EEB4D3C55B4414C8F701B0A8F8F1A82E62906208FE9BB);
    Doubles(P256, G, 0x3FFFFFFFC00000003FFFFFFFFFFFFFFFEF39BEAB69C5E7A13CEE72B0BF, q13, 0xE04398830685690DF5E208459A98DEFD8832B5196E2BE0B8DF82C16C77F7F5, q14);
    var q15 := At(0xF49A46909CC3C3AE5F0E0E4175F697B4A1329F91EF877055BD355DE11D80CD19, 0x8DBBCA34791CF88CE183167846FD2483D0E1A00D08A2297EC22A39C9F20F6E1A);
    Doubles(P256, G, 0x7FFFFFFF800000007FFFFFFFFFFFFFFFDE737D56D38BCF4279DCE5617E, q14, 0xFCD96FFEBEB7A47EE4590684B7C9A2E0B8FA03BEABD83654D7D76CDBBCD60335, q15);
    var q16 := At(0x5B7AE21390E06E5B56426232EF256ED7A045AFCED3129CBC97B48E5218D6851C, 0x6AF7384CE28C73A8FB684E06A357B16F357D446649625CB70CE4AC07FE23C695);
    Doubles(P256, G, 0xFFFFFFFF00000000FFFFFFFFFFFFFFFFBCE6FAADA7179E84F3B9CAC2FC, q15, 0xA740A7573695F572D3C174ED4560CBD69EEE3A8E77BE3734BCA252C05A6933A0, q16);
    var q17 := At(0x8759D217F6435F047AE53C5B69064E5625AB65AEF1DFE53297E1D06BDC6293A7, 0x1A4F9F8D6D125F3E68636F6197F317D835AD3472D85A3B5B1F30917C4CEC7130);
    Doubles(P256, G, 0x1FFFFFFFE00000001FFFFFFFFFFFFFFFF79CDF55B4E2F3D09E7739585F8, q16, 0x4C10A29D61779FCC20538FE766B7BA167322DBFE669DCBE6FED8DF39242193B6, q17);
    var q18 := At(0xD8CDC77EA95AB2291B51BADD5FA6219C7F248A94631A055FDF7A7ED7C2CD0617, 0xC87CF8E268C5A7F38979FAAB9A686971E558789E47E329A04E879D8B567128BE);
    Doubles(P256, G, 0x3FFFFFFFC00000003FFFFFFFFFFFFFFFEF39BEAB69C5E7A13CEE72B0BF0, q17, 0x600F9EDBD10D66828A7B5B61845900B2176ABCAF2446C42AE814CD26313DB489, q18);
    var q19 := At(0x515A5C2B5C8BE7DD4CBD739261D6551620E1D6B8B12B1E32BC2A7F2B16A8D329, 0xB73A18F19AAE7E9A27C8B0783D5702C6DADD9BBC232C0138374A81B86D86A19F);
    Adds(P256, G, 0x7FFFFFFF800000007FFFFFFFFFFFFFFFDE737D56D38BCF4279DCE5617E0, q18, 0x3, TIMES_3, 0x4D7C500039A977386FF5124974D9441977A535400D027D3D012AA0043AE909D0, q19);
    var q20 := At(0x6FA0471754EF6E621119DE5772C488C48A4B0D83F2CF1D66526FD06568BF77D4, 0x8145B5A6507BAE52B1F9061E581E48AD0B0CF420D1B4B0B6636ACDC60FE84454);
    Doubles(P256, G, 0x7FFFFFFF800000007FFFFFFFFFFFFFFFDE737D56D38BCF4279DCE5617E3, q19, 0x9C82ADC5593BE14823416D07F9F833DB891A9F58CA31315A0DCA08778EDD591C, q20);
    var q21 := At(0xF68849425560EC635F6A997ADDF82E863B6EF2571C9B9270B636EBFB60179F22, 0x89BD903D03F97E4D9A173A09490B3E7640EFD324E922D1BB29FBB671F0CB7A30);
    Doubles(P256, G, 0xFFFFFFFF00000000FFFFFFFFFFFFFFFFBCE6FAADA7179E84F3B9CAC2FC6, q20, 0xFF5FA2B8EAA15963BCF8F4D08AD28483801B21E4AB054838B84B2C1B7EEC2911, q21);
    var q22 := At(0x5686115EAE4EF47D7AAB8CCC1D212187FD9F23D1FD328B227531F0D869EDA59C, 0x810EBD4885A8653D3C2339E30A8E6692AB6D97760D344905C41231C32B9B2A0C);
    Doubles(P256, G, 0x1FFFFFFFE00000001FFFFFFFFFFFFFFFF79CDF55B4E2F3D09E7739585F8C, q21, 0x32057CFEC2C8B40D8810F0FD0F1BC108F4D4BF6FBC21B9A5E7E521A26D065898, q22);
    var q23 := At(0x400A1425E0A163DB3F99BFA5FE9264AF4FE47167A50A7B479A32D4E5AD7FA51F, 0x929355A79F1298075E0E3370207FBB9ABBD8C4C20E0D71E644833EA4E75AF6A6);
    Doubles(P256, G, 0x3FFFFFFFC00000003FFFFFFFFFFFFFFFEF39BEAB69C5E7A13CEE72B0BF18, q22, 0xAB2D3277A3919FB090C5B011B0174C465BD9E87F95553F4AD7734DF531758636, q23);
  }

  lemma Chain17()
    requires Sound(P256, G)
    ensures Multiple(P256, G, 0xFFFFFFFF00000000FFFFFFFFFFFFFFFFBCE6FAADA7179E84F3B9CAC2FC632550, At(0x6B17D1F2E12C4247F8BCE6E563A440F277037D812DEB33A0F4A13945D898C296, 0xB01CBD1C01E58065711814B583F061E9D431CCA994CEA1313449BF97C840AE0A))
  {
    hide Sound, Scalar, Multiple;
    Once(P256, G);
    Chain1();
    Chain2();
    Chain16();
    var q0 := At(0x400A1425E0A163DB3F99BFA5FE9264AF4FE47167A50A7B479A32D4E5AD7FA51F, 0x929355A79F1298075E0E3370207FBB9ABBD8C4C20E0D71E644833EA4E75AF6A6);
    var q1 := At(0xB55A21A1E03A2F0A9B070978A7B655AE43FBAEB52A76CE53A44CEA8555AC2958, 0x1466078ABD02D5C45BDD45490E7A9B1300082A56BA1AFAF7BBFAD9E91AF65C2);
    Doubles(P256, G, 0x7FFFFFFF800000007FFFFFFFFFFFFFFFDE737D56D38BCF4279DCE5617E30, q0, 0xD299815F73C67C9DBE0D852CC95C113C9BDEC24FEEE4972AB046C6BE0409C1A5, q1);
    var q2 := At(0xB17E6BFED71F7F05E67541467D5E204F4B7661F3BD38EF80BBD444E18580C3A4, 0xBD586B987422EB9D9A8D2CBB5B0C59D45181FDC306289CF22AE9BBB57A11B0C9);
    Adds(P256, G, 0xFFFFFFFF00000000FFFFFFFFFFFFFFFFBCE6FAADA7179E84F3B9CAC2FC60, q1, 0x3, TIMES_3, 0xAFB2A11BB61CAAA91C68B19924A6F77A22545C4A917C2E50E853864410FABFDA, q2);
    var q3 := At(0x39AB958349697AB9F282DC26F0393AC0D35DC8FCFB59CF2E51BD8ABD7446CC97, 0x8695CEA513AE14BA940A4A4C21ED6BA5ABD6F553AF0BB38B0977265386E375AD);
    Doubles(P256, G, 0xFFFFFFFF00000000FFFFFFFFFFFFFFFFBCE6FAADA7179E84F3B9CAC2FC63, q2, 0x4439830783F364FF8326337036FD5B26868085C15009F456A82A1B0880FF7D67, q3);
    var q4 := At(0x2FF9FD617C484D71768EF596387A74946231DED854CE0C17FA9F136403A53AFB, 0xA0DF35776489C430D028BCBF4DF46E55894056910C81D6F03EB8C7E9FD19B663);
    Doubles(P256, G, 0x1FFFFFFFE00000001FFFFFFFFFFFFFFFF79CDF55B4E2F3D09E7739585F8C6, q3, 0x2F41D190D91E77680712007969891E3CA1DEEEAA9415496A1D4E302A4DF1E551, q4);
    var q5 := At(0x547AFDF3299ED7A0AC6898A1328E9CB4A8FADD5EB0E8316D1F958D1CD1AD2F22, 0x679D3ACE3732E0D3B712C53DF0CFD443A95160889165EF5D6D21E7C2909CA7EB);
    Doubles(P256, G, 0x3FFFFFFFC00000003FFFFFFFFFFFFFFFEF39BEAB69C5E7A13CEE72B0BF18C, q4, 0xE60A0CB18C966612D38CC039609F7FF3A2DE07EFEAF428B0A465C13B23621739, q5);
    var q6 := At(0xEC0D6CEFEF709AE43068258C12487AC86A5598ABF65826F0B9F7DEAC5E7248B8, 0x144D9C22819E44660850C4F05A108C0BB7E743114CAC03F3D84DC641697A8F2C);
    Doubles(P256, G, 0x7FFFFFFF800000007FFFFFFFFFFFFFFFDE737D56D38BCF4279DCE5617E318, q5, 0x35CA18CD2CF4B17E8E2936C8DACAD42209864D0C3605453612E1750A4CB88ECB, q6);
    var q7 := At(0xFC7B4E12AC8E26FDD07CCA8B1315DC1686117E2E736713A467ECF7E274D7F67E, 0x6D7C2D96EEB265A1FA203BC1903D956666465DD2CC3CE7600FE4CD87D70F4180);
    Doubles(P256, G, 0xFFFFFFFF00000000FFFFFFFFFFFFFFFFBCE6FAADA7179E84F3B9CAC2FC630, q6, 0xE02C83A19B5D26D223A51E3CA9C74E4B934C8FA28E0AEEAFE54504FFEE2BBAC7, q7);
    var q8 := At(0x1EE8E5E21CFC342869EDBDDF827CF330449D82CD7E2A4F6DE9C6FF038AC0F977, 0x4AC99EFB3E7C8A80CD4D759CD43158FFF0561D5D24163A5E93E8CEA86DFD1E3D);
    Doubles(P256, G, 0x1FFFFFFFE00000001FFFFFFFFFFFFFFFF79CDF55B4E2F3D09E7739585F8C60, q7, 0xA1D3525F61EB1730002A03EB42FE6DA8A75FFA55E7920E5F18FD5B1018AAF33F, q8);
    var q9 := At(0x100CC5DB446F83F8B506E69C7CCF1023D624D9B01CCE5D610BD6AE6D0B11E615, 0x39652210041B0ED6FF8C4E944C72ADEF086E8E3A90CC3D91D9B98E6C63F9200A);
    Adds(P256, G, 0x3FFFFFFFC00000003FFFFFFFFFFFFFFFEF39BEAB69C5E7A13CEE72B0BF18C0, q8, 0x9, TIMES_9, 0x10863973A1A3A9A3D9BF6FC09AACC296F575C42B33B6DEE10C95FFA0C0E71E05, q9);
    var q10 := At(0x897B2E8A15224A834ED3055D1FB73DC1456B55E4C81F6A272A221932E30A3C69, 0xC672D5FA0F1C427C70590789AFCFC04BEA0E0AD7264F681FA4D59BD0F2EE7793);
    Doubles(P256, G, 0x3FFFFFFFC00000003FFFFFFFFFFFFFFFEF39BEAB69C5E7A13CEE72B0BF18C9, q9, 0x3D46E9EF5AED4AA9FEA6810DE4D5E822316732BCBDFBFF222B7EA641D0F4C236, q10);
    var q11 := At(0x6FEDD00CA92B1FEE729065E07E3045956E800DBE44934B24DDA8D83D29752B79, 0xA3D3D10EFA2D60AE0DC4345115BDAD6FE27826FF3D7592FA19175F5D99EDFB18);
    Doubles(P256, G, 0x7FFFFFFF800000007FFFFFFFFFFFFFFFDE737D56D38BCF4279DCE5617E3192, q10, 0x2D45701FDA7E3D7F4ECB15FD4FEFEBE30788A1A6861A4F6CA1431CD8C329E135, q11);
    var q12 := At(0x1C5F6BB0C98662883C81AE2904FF0036698BFD2576A73852D162DE5080092DEB, 0xB554F9781A1C60C24CE383EC5F8F194BD8875736A212C27768967A35E5E766AA);
    Doubles(P256, G, 0xFFFFFFFF00000000FFFFFFFFFFFFFFFFBCE6FAADA7179E84F3B9CAC2FC6324, q11, 0xF1DECA311239017A17BE9A516E9BD72380EEA972043730D8B8D551EA4553BA94, q12);
    var q13 := At(0x3E599168C43C46AE2FED5767F7F0E58BBEEBB50AF8123D58C8828A047F5F8AE1, 0x85BD5619539817343EAB45B8E13E0CA8377D37D9299204D679EC11BF0149CD0);
    Doubles(P256, G, 0x1FFFFFFFE00000001FFFFFFFFFFFFFFFF79CDF55B4E2F3D09E7739585F8C648, q12, 0x25E292E0B60E5D1807335B8E243D630EC2DEDBB7FBF1D12D5E899D0EDAC66E4C, q13);
    var q14 := At(0x3B79F0190D30EC507DF4C9433006DC3F98108E8C840EECAC60F2EE72576300C2, 0x7800CB8410E7425B27CB4AE12D2F1CE2DD35FB7758AD99E0729F0C20D9250146);
    Adds(P256, G, 0x3FFFFFFFC00000003FFFFFFFFFFFFFFFEF39BEAB69C5E7A13CEE72B0BF18C90, q13, 0x5, TIMES_5, 0xABC3F2E03F292C35379E52C49D99DAEB242D7440E356CB59FA759EA05008B452, q14);
    var q15 := At(0xF005C5F391B8839D71D237050B742310632C4471BC90684ABADDDE575F701F04, 0x646F5EEBABD61AA6F1F83CB7AF67CC889746019BA17F47C4C9793666EC5AC01);
    Doubles(P256, G, 0x3FFFFFFFC00000003FFFFFFFFFFFFFFFEF39BEAB69C5E7A13CEE72B0BF18C95, q14, 0x13E1AACE41718A701CFC777D12D8D44229A07D9DEB4B28C637EE82E18B6B8866, q15);
    var q16 := At(0xAD7046B18A9AD4D5338FFDB2A83922A5D7E2583283F65FD27F1C88ACB211236, 0xF11CA539CFD85528E7B9C0F7B0574B11224AD4B45954DA3481EF046E33B5FC6);
    Doubles(P256, G, 0x7FFFFFFF800000007FFFFFFFFFFFFFFFDE737D56D38BCF4279DCE5617E3192A, q15, 0x56436AB347A1162845D4C6B9CBE939ADEA2C4F90C169D40A97E58C7FBAEC7A9B, q16);
    var q17 := At(0xB59926323F5188ED4AA844765881B0AA43DE7963F0CE306A3B3B2D0BCC94E208, 0x6713A14AD58A39AEBD2F04422C3243F82DC3CA46A7B6BA0103E8E1B7303BB397);
    Adds(P256, G, 0xFFFFFFFF00000000FFFFFFFFFFFFFFFFBCE6FAADA7179E84F3B9CAC2FC63254, q16, 0x1, G, 0x9B77EC69617F51069699BEC6F62797E61FDA164D9AD2F53842780FB17E45FA62, q17);
    var q18 := At(0x55998956742784829DCA12DE6A988EA385DB1548366A5131359AE2FD09295726, 0x6F76653E8F904D66C1C95C432ECE5AA6F2187C07620A71BD27E88E8FC6457CD6);
    Doubles(P256, G, 0xFFFFFFFF00000000FFFFFFFFFFFFFFFFBCE6FAADA7179E84F3B9CAC2FC63255, q17, 0x510D851C47BAF8984835E68C845E2BB545D52977FC75A523D9580F6237793779, q18);
    var q19 := At(0x7469A88FAB79AE982FA880B0B940B96C6108EAEC0473E2F530A861FA608F682, 0xB6BF06C0F458180962CB09C94552FECEA039E0575B739E4213C698318A66F8F1);
    Doubles(P256, G, 0x1FFFFFFFE00000001FFFFFFFFFFFFFFFF79CDF55B4E2F3D09E7739585F8C64AA, q18, 0xB9FDED35E510EAF5658921BFE5042746076D1426453AA249DCB6BD3495E18EC8, q19);
    var q20 := At(0x2AFA386B3F2BDCDB83F4D83F8FA3874D7B74DCB454BD644FDD6BF3D1F2DA8DB6, 0x72184BE1CAA8563462B536F10852D665AE8A64FDF1EB8D4C946AD589796F729C);
    Doubles(P256, G, 0x3FFFFFFFC00000003FFFFFFFFFFFFFFFEF39BEAB69C5E7A13CEE72B0BF18C954, q19, 0x755D14D98FF4CBF80F733A8570B5B20DD2D2E8C0FECC7EBE2D31BBA5E4B33192, q20);
    var q21 := At(0x6B17D1F2E12C4247F8BCE6E563A440F277037D812DEB33A0F4A13945D898C296, 0xB01CBD1C01E58065711814B583F061E9D431CCA994CEA1313449BF97C840AE0A);
    Doubles(P256, G, 0x7FFFFFFF800000007FFFFFFFFFFFFFFFDE737D56D38BCF4279DCE5617E3192A8, q20, 0x83362C631C75685E3615425A3BF2D24AD3517A0496F1D94B79CC3FDABF3FE22A, q21);
  }

  /** One more than a multiple that is g's mirror image is infinity. */
  lemma {:induction false} MirrorEnds(c: Curve, g: Point, n: nat)
    requires Sound(c, g) && n > 0 && g.At? && g.y != 0 && Multiple(c, g, n - 1, At(g.x, c.p - g.y)) && 2 * g.y != c.p
    ensures Scalar(c, n, g) == Infinity
  {
    hide IsPrime, Associative, On;
    Once(c, g);
    ScalarPlus(c, n - 1, 1, g);
  }

  /** N - 1 times the base point is its mirror image. */
  lemma BeforeN()
    requires Sound(P256, G)
    ensures Multiple(P256, G, N - 1, At(GX, P - GY))
  {
    hide Sound, Scalar, Multiple;
    Chain17();
  }
}
