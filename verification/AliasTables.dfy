/** The word tables of internal/app/ai/customer_alias.go. */
module AliasTables {

  import opened CustomerAlias
  import opened GoStrings

  /** Everyday words by length: longest first, each group in the order of the source. */
  const WORDS_OF_FOUR: seq<string> := ["阿司匹林"]

  const WORDS_OF_THREE: seq<string> := [
    "老顾客", "老常客", "老关系", "老路子", "老毛病", "老方法", "老江湖", "老古董", "小包装",
    "小包裹", "小单子", "小程序", "小项目", "小马扎", "小龙虾", "小白菜", "小黄鱼", "小苏打",
    "小金库", "小游戏", "总成本", "总金额", "总库存", "总收入"
  ]

  const WORDS_OF_TWO: seq<string> := [
    "小时", "小区", "小麦", "小米", "小车", "小于", "小费", "总共", "总计",
    "总是", "总额", "总价", "总数", "总量", "总体", "总店", "总部", "总算",
    "总销", "总账", "总表", "总结", "总和", "总之", "姐姐", "哥哥", "叔叔",
    "婶婶"
  ]

  /** The common surnames, in rows. */
  const SURNAMES_1: seq<string> := ["王李张刘陈杨黄赵吴周", "徐孙马朱胡郭何高林罗", "郑梁谢宋唐许韩冯邓曹", "彭曾肖田董袁潘于蒋蔡"]
  const SURNAMES_2: seq<string> := ["余杜叶程苏魏吕丁任沈", "姚卢姜崔钟谭陆汪范金", "石廖贾夏韦付傅方白邹", "孟熊秦邱江尹薛闫段雷"]
  const SURNAMES_3: seq<string> := ["侯龙史陶黎贺顾毛郝龚", "邵万钱严覃武戴莫孔向", "汤常温康施文牛樊葛邢", "安齐易乔伍庞颜倪庄聂"]
  const SURNAMES_4: seq<string> := ["章鲁岳翟殷詹申欧耿关", "兰焦俞左柳甘祝包宁尚", "符舒阮柯纪梅童凌毕单", "季裴霍涂成苗谷盛曲翁"]
  const SURNAMES_5: seq<string> := ["冉骆蓝路游辛靳管柴蒙", "鲍华喻祁蒲房滕屈饶解", "牟艾尤阳时穆农司卓古", "吉缪简车项连芦麦褚娄"]
  const SURNAMES_6: seq<string> := ["窦戚岑景党宫费卜冷晏", "席卫米柏宗瞿桂佟应臧", "闵苟邬边卞姬仇栾隋商", "刁沙荣巫寇桑郎甄丛仲"]
  const SURNAMES_7: seq<string> := ["虞敖巩佘池查麻苑迟邝", "区"]

  const SURNAMES_A := SURNAMES_1 + SURNAMES_2 + SURNAMES_3
  const SURNAMES_B := SURNAMES_4 + SURNAMES_5 + SURNAMES_6 + SURNAMES_7
  const SURNAMES := SURNAMES_A + SURNAMES_B

  const TABLES := Lists(WORDS_OF_FOUR + WORDS_OF_THREE + WORDS_OF_TWO, set row, c | row in SURNAMES && c in row :: c)

  predicate AllSolid(ws: seq<string>) { forall k :: 0 <= k < |ws| ==> Solid(ws[k]) }

  /** The words hold ideographs only. */
  predicate Ideographs(s: string) { forall i :: 0 <= i < |s| ==> '\U{4E00}' <= s[i] <= '\U{9FFF}' }

  lemma IdeographsSolid(s: string)
    requires Ideographs(s) && s != ""
    ensures Solid(s)
  {
  }

  predicate AllIdeographs(ws: seq<string>) { forall k :: 0 <= k < |ws| ==> ws[k] != "" && Ideographs(ws[k]) }

  lemma AllIdeographsSolid(ws: seq<string>)
    requires AllIdeographs(ws)
    ensures AllSolid(ws)
  {
    hide Ideographs, Solid;
    forall k | 0 <= k < |ws| ensures Solid(ws[k]) {
      IdeographsSolid(ws[k]);
    }
  }

  lemma FourIdeographs()
    ensures AllIdeographs(WORDS_OF_FOUR)
  {
  }

  lemma ThreeIdeographs()
    ensures AllIdeographs(WORDS_OF_THREE)
  {
  }

  lemma TwoIdeographs()
    ensures AllIdeographs(WORDS_OF_TWO)
  {
  }

  lemma Surnames1()
    ensures AllIdeographs(SURNAMES_1)
  {
  }

  lemma Surnames2()
    ensures AllIdeographs(SURNAMES_2)
  {
  }

  lemma Surnames3()
    ensures AllIdeographs(SURNAMES_3)
  {
  }

  lemma Surnames4()
    ensures AllIdeographs(SURNAMES_4)
  {
  }

  lemma Surnames5()
    ensures AllIdeographs(SURNAMES_5)
  {
  }

  lemma Surnames6()
    ensures AllIdeographs(SURNAMES_6)
  {
  }

  lemma Surnames7()
    ensures AllIdeographs(SURNAMES_7)
  {
  }

  lemma JoinIdeographs(a: seq<string>, b: seq<string>)
    requires AllIdeographs(a) && AllIdeographs(b)
    ensures AllIdeographs(a + b)
  {
    hide Ideographs;
  }

  lemma SurnamesA()
    ensures AllIdeographs(SURNAMES_A)
  {
    hide AllIdeographs;
    Surnames1();
    Surnames2();
    Surnames3();
    JoinIdeographs(SURNAMES_1, SURNAMES_2);
    JoinIdeographs(SURNAMES_1 + SURNAMES_2, SURNAMES_3);
  }

  lemma SurnamesB()
    ensures AllIdeographs(SURNAMES_B)
  {
    hide AllIdeographs;
    Surnames4();
    Surnames5();
    Surnames6();
    Surnames7();
    JoinIdeographs(SURNAMES_4, SURNAMES_5);
    JoinIdeographs(SURNAMES_4 + SURNAMES_5, SURNAMES_6);
    JoinIdeographs(SURNAMES_4 + SURNAMES_5 + SURNAMES_6, SURNAMES_7);
  }

  lemma SurnameIdeographs()
    ensures AllIdeographs(SURNAMES)
  {
    hide AllIdeographs;
    SurnamesA();
    SurnamesB();
    JoinIdeographs(SURNAMES_A, SURNAMES_B);
  }

  /** The tables of the source meet what the lemmas of CustomerAlias ask of word lists. */
  lemma TablesAreProper()
    ensures Proper(TABLES)
  {
    hide Ideographs, Solid, IsSpace, AllIdeographs, AllSolid;
    FourIdeographs();
    ThreeIdeographs();
    TwoIdeographs();
    SurnameIdeographs();
    AllIdeographsSolid(WORDS_OF_FOUR);
    AllIdeographsSolid(WORDS_OF_THREE);
    AllIdeographsSolid(WORDS_OF_TWO);
    AllIdeographsSolid(SURNAMES);
    JoinSolid(WORDS_OF_FOUR, WORDS_OF_THREE);
    JoinSolid(WORDS_OF_FOUR + WORDS_OF_THREE, WORDS_OF_TWO);
    ProperIs(WORDS_OF_FOUR + WORDS_OF_THREE + WORDS_OF_TWO, SURNAMES);
  }

  lemma JoinSolid(a: seq<string>, b: seq<string>)
    requires AllSolid(a) && AllSolid(b)
    ensures AllSolid(a + b)
  {
    hide Solid;
  }

  lemma ProperIs(words: seq<string>, rows: seq<string>)
    requires AllSolid(words) && AllSolid(rows)
    ensures Proper(Lists(words, set row, c | row in rows && c in row :: c))
  {
    hide IsSpace;
    forall row, c | row in rows && c in row ensures !IsSpace(c) {
      var k :| 0 <= k < |rows| && rows[k] == row;
      assert Solid(rows[k]);
    }
  }

  predicate AllOf(ws: seq<string>, n: nat) { forall k :: 0 <= k < |ws| ==> |ws[k]| == n }

  predicate LongestFirst(ws: seq<string>) { forall j, k :: 0 <= j < k < |ws| ==> |ws[j]| >= |ws[k]| }

  lemma LengthFour()
    ensures AllOf(WORDS_OF_FOUR, 4)
  {
  }

  lemma LengthThree()
    ensures AllOf(WORDS_OF_THREE, 3)
  {
  }

  lemma LengthTwo()
    ensures AllOf(WORDS_OF_TWO, 2)
  {
  }

  lemma Layers(a: seq<string>, b: seq<string>, c: seq<string>)
    requires AllOf(a, 4) && AllOf(b, 3) && AllOf(c, 2)
    ensures LongestFirst(a + b + c)
  {
  }

  /** The everyday words stand longest first. */
  lemma EverydayLongestFirst()
    ensures LongestFirst(TABLES.everyday)
  {
    hide AllOf, LongestFirst;
    LengthFour();
    LengthThree();
    LengthTwo();
    Layers(WORDS_OF_FOUR, WORDS_OF_THREE, WORDS_OF_TWO);
  }
}
