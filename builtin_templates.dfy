/** The four templates the main store offers (`initialTemplates` in
    frontend/context/CanvasContext.tsx), as data. Each is loaded through
    CanvasModel.LoadTemplate, whose guarantees for self-contained templates are
    stated there. */
module BuiltinTemplates {
  import opened ShapeTypes
  import CanvasModel

  function Box(id: string, kind: Kind, x: real, y: real, w: real, h: real, bg: string, radius: Option<real>, text: string): Shape {
    Shape(id, kind, Position(x, y),
          EmptyStyle.(width := Some(w), height := Some(h), backgroundColor := Some(bg), borderRadius := radius),
          None, None, None, None, Some(text), None, None)
  }

  function Link(id: string, from: string, to: string, labelText: string): Line {
    Line(id, Some(from), Some(to), Some(labelText))
  }

  const Template1Shapes: seq<Shape> := [
    Box("start", Oval, 150.0, 20.0, 140.0, 60.0, "#FFDDC1", Some(30.0), "Enter website"),
    Box("product_list", Rectangle, 150.0, 130.0, 140.0, 60.0, "#A7C7E7", None, "Go to product list page"),
    Box("review_recommended", Rectangle, 150.0, 240.0, 140.0, 60.0, "#A7C7E7", None, "Review recommended item"),
    Box("search_items", Rectangle, 20.0, 350.0, 140.0, 60.0, "#A7C7E7", None, "Search for items"),
    Box("use_menu", Rectangle, 280.0, 350.0, 140.0, 60.0, "#A7C7E7", None, "Use the menu and navigate"),
    Box("identify_purchase", Rectangle, 150.0, 460.0, 140.0, 60.0, "#A7C7E7", None, "Identify item for purchase"),
    Box("add_to_cart", Rectangle, 150.0, 570.0, 140.0, 60.0, "#A7C7E7", None, "Add item to shopping cart"),
    Box("more_items", Diamond, 150.0, 680.0, 140.0, 140.0, "#D8BFD8", None, "More items?"),
    Box("checkout", Rectangle, 150.0, 850.0, 140.0, 60.0, "#A7C7E7", None, "Checkout process"),
    Box("login_signup", Rectangle, 150.0, 960.0, 140.0, 60.0, "#A7C7E7", None, "Login/signup page"),
    Box("review_order", Rectangle, 150.0, 1070.0, 140.0, 60.0, "#A7C7E7", None, "Review order confirmation"),
    Box("exit", Oval, 150.0, 1180.0, 140.0, 60.0, "#FFDDC1", Some(30.0), "Exit website")
  ]

  const Template1Lines: seq<Line> := [
    Link("l1", "start", "product_list", ""),
    Link("l2", "product_list", "review_recommended", ""),
    Link("l3", "review_recommended", "identify_purchase", ""),
    Link("l4", "search_items", "identify_purchase", ""),
    Link("l5", "use_menu", "identify_purchase", ""),
    Link("l6", "identify_purchase", "add_to_cart", ""),
    Link("l7", "add_to_cart", "more_items", ""),
    Link("l8", "more_items", "checkout", "No"),
    Link("l9", "more_items", "product_list", "Yes"),
    Link("l10", "checkout", "login_signup", ""),
    Link("l11", "login_signup", "review_order", ""),
    Link("l12", "review_order", "exit", "")
  ]

  const Template2Shapes: seq<Shape> := [
    Box("t2_start", Oval, 350.0, 20.0, 120.0, 50.0, "#F08080", Some(25.0), "Start"),
    Box("t2_see_button", Diamond, 300.0, 120.0, 220.0, 220.0, "#7FFFD4", None, "Can you see a button or a menu item related to what you want to do?"),
    Box("t2_click_it", Rectangle, 350.0, 400.0, 120.0, 50.0, "#87CEEB", None, "Click it"),
    Box("t2_did_it_work", Diamond, 325.0, 500.0, 170.0, 170.0, "#7FFFD4", None, "Did it work?"),
    Box("t2_you_are_done", Oval, 335.0, 720.0, 150.0, 60.0, "#F08080", Some(30.0), "You are done"),
    Box("t2_tried_random", Diamond, 600.0, 120.0, 180.0, 180.0, "#7FFFD4", None, "Did you try one at random?"),
    Box("t2_google_it", Rectangle, 610.0, 350.0, 160.0, 80.0, "#87CEEB", None, "Google name of the program plus a few words related to what you want to do"),
    Box("t2_half_hour", Diamond, 50.0, 500.0, 200.0, 200.0, "#7FFFD4", None, "Have you been trying this for over half an hour?"),
    Box("t2_ask_someone", Oval, 60.0, 750.0, 180.0, 70.0, "#F08080", Some(35.0), "Ask someone for help or give up")
  ]

  const Template2Lines: seq<Line> := [
    Link("t2_l1", "t2_start", "t2_see_button", ""),
    Link("t2_l2", "t2_see_button", "t2_click_it", "Yes"),
    Link("t2_l3", "t2_click_it", "t2_did_it_work", ""),
    Link("t2_l4", "t2_did_it_work", "t2_you_are_done", "Yes"),
    Link("t2_l5", "t2_see_button", "t2_tried_random", "No"),
    Link("t2_l6", "t2_tried_random", "t2_google_it", "No"),
    Link("t2_l7", "t2_tried_random", "t2_click_it", "Yes"),
    Link("t2_l8", "t2_did_it_work", "t2_half_hour", "No"),
    Link("t2_l9", "t2_half_hour", "t2_ask_someone", "Yes"),
    Link("t2_l10", "t2_half_hour", "t2_google_it", "No")
  ]

  const Template3Shapes: seq<Shape> := [
    Box("t3_step1", Rectangle, 150.0, 50.0, 150.0, 70.0, "#C1E1C1", None, "Step 1"),
    Box("t3_step2", Rectangle, 150.0, 200.0, 150.0, 70.0, "#C1E1C1", None, "Step 2"),
    Box("t3_step3", Rectangle, 150.0, 350.0, 150.0, 70.0, "#C1E1C1", None, "Step 3")
  ]

  const Template3Lines: seq<Line> := [
    Link("t3_l1", "t3_step1", "t3_step2", ""),
    Link("t3_l2", "t3_step2", "t3_step3", "")
  ]

  const Template4Shapes: seq<Shape> := [
    Box("t4_start", Oval, 150.0, 50.0, 150.0, 70.0, "#FADADD", Some(35.0), "Start"),
    Box("t4_decision", Diamond, 125.0, 200.0, 200.0, 200.0, "#BDE4F4", None, "Decision Point"),
    Box("t4_option_a", Rectangle, 20.0, 450.0, 150.0, 70.0, "#C1E1C1", None, "Option A"),
    Box("t4_option_b", Rectangle, 280.0, 450.0, 150.0, 70.0, "#C1E1C1", None, "Option B")
  ]

  const Template4Lines: seq<Line> := [
    Link("t4_l1", "t4_start", "t4_decision", ""),
    Link("t4_l2", "t4_decision", "t4_option_a", "Yes"),
    Link("t4_l3", "t4_decision", "t4_option_b", "No")
  ]
  const InitialTemplates: seq<Template> := [
    Template(Template1Shapes, Template1Lines, None),
    Template(Template2Shapes, Template2Lines, None),
    Template(Template3Shapes, Template3Lines, None),
    Template(Template4Shapes, Template4Lines, None)
  ]

  /** Every line of template 1 joins two of its own shapes. */
  lemma Template1SelfContained()
    ensures CanvasModel.SelfContained(InitialTemplates[0])
  {
    var s, ls := Template1Shapes, Template1Lines;
    forall l | l in ls ensures CanvasModel.Attached(l, s) {
      var k :| 0 <= k < |ls| && ls[k] == l;
      Template1LineAttached(k);
    }
  }

  lemma Template1LineAttached(k: int)
    requires 0 <= k < |Template1Lines|
    ensures CanvasModel.Attached(Template1Lines[k], Template1Shapes)
  {
    var s, ls := Template1Shapes, Template1Lines;
    if k == 0 {
      assert s[0].id == ls[k].startShapeId.value && s[1].id == ls[k].endShapeId.value;
    } else if k == 1 {
      assert s[1].id == ls[k].startShapeId.value && s[2].id == ls[k].endShapeId.value;
    } else if k == 2 {
      assert s[2].id == ls[k].startShapeId.value && s[5].id == ls[k].endShapeId.value;
    } else if k == 3 {
      assert s[3].id == ls[k].startShapeId.value && s[5].id == ls[k].endShapeId.value;
    } else if k == 4 {
      assert s[4].id == ls[k].startShapeId.value && s[5].id == ls[k].endShapeId.value;
    } else if k == 5 {
      assert s[5].id == ls[k].startShapeId.value && s[6].id == ls[k].endShapeId.value;
    } else if k == 6 {
      assert s[6].id == ls[k].startShapeId.value && s[7].id == ls[k].endShapeId.value;
    } else if k == 7 {
      assert s[7].id == ls[k].startShapeId.value && s[8].id == ls[k].endShapeId.value;
    } else if k == 8 {
      assert s[7].id == ls[k].startShapeId.value && s[1].id == ls[k].endShapeId.value;
    } else if k == 9 {
      assert s[8].id == ls[k].startShapeId.value && s[9].id == ls[k].endShapeId.value;
    } else if k == 10 {
      assert s[9].id == ls[k].startShapeId.value && s[10].id == ls[k].endShapeId.value;
    } else {
      assert s[10].id == ls[k].startShapeId.value && s[11].id == ls[k].endShapeId.value;
    }
  }

  /** Every line of template 2 joins two of its own shapes. */
  lemma Template2SelfContained()
    ensures CanvasModel.SelfContained(InitialTemplates[1])
  {
    var s, ls := Template2Shapes, Template2Lines;
    forall l | l in ls ensures CanvasModel.Attached(l, s) {
      var k :| 0 <= k < |ls| && ls[k] == l;
      Template2LineAttached(k);
    }
  }

  lemma Template2LineAttached(k: int)
    requires 0 <= k < |Template2Lines|
    ensures CanvasModel.Attached(Template2Lines[k], Template2Shapes)
  {
    var s, ls := Template2Shapes, Template2Lines;
    if k == 0 {
      assert s[0].id == ls[k].startShapeId.value && s[1].id == ls[k].endShapeId.value;
    } else if k == 1 {
      assert s[1].id == ls[k].startShapeId.value && s[2].id == ls[k].endShapeId.value;
    } else if k == 2 {
      assert s[2].id == ls[k].startShapeId.value && s[3].id == ls[k].endShapeId.value;
    } else if k == 3 {
      assert s[3].id == ls[k].startShapeId.value && s[4].id == ls[k].endShapeId.value;
    } else if k == 4 {
      assert s[1].id == ls[k].startShapeId.value && s[5].id == ls[k].endShapeId.value;
    } else if k == 5 {
      assert s[5].id == ls[k].startShapeId.value && s[6].id == ls[k].endShapeId.value;
    } else if k == 6 {
      assert s[5].id == ls[k].startShapeId.value && s[2].id == ls[k].endShapeId.value;
    } else if k == 7 {
      assert s[3].id == ls[k].startShapeId.value && s[7].id == ls[k].endShapeId.value;
    } else if k == 8 {
      assert s[7].id == ls[k].startShapeId.value && s[8].id == ls[k].endShapeId.value;
    } else {
      assert s[7].id == ls[k].startShapeId.value && s[6].id == ls[k].endShapeId.value;
    }
  }

  /** Every line of template 3 joins two of its own shapes. */
  lemma Template3SelfContained()
    ensures CanvasModel.SelfContained(InitialTemplates[2])
  {
    var s, ls := Template3Shapes, Template3Lines;
    forall l | l in ls ensures CanvasModel.Attached(l, s) {
      var k :| 0 <= k < |ls| && ls[k] == l;
      Template3LineAttached(k);
    }
  }

  lemma Template3LineAttached(k: int)
    requires 0 <= k < |Template3Lines|
    ensures CanvasModel.Attached(Template3Lines[k], Template3Shapes)
  {
    var s, ls := Template3Shapes, Template3Lines;
    if k == 0 {
      assert s[0].id == ls[k].startShapeId.value && s[1].id == ls[k].endShapeId.value;
    } else {
      assert s[1].id == ls[k].startShapeId.value && s[2].id == ls[k].endShapeId.value;
    }
  }

  /** Every line of template 4 joins two of its own shapes. */
  lemma Template4SelfContained()
    ensures CanvasModel.SelfContained(InitialTemplates[3])
  {
    var s, ls := Template4Shapes, Template4Lines;
    forall l | l in ls ensures CanvasModel.Attached(l, s) {
      var k :| 0 <= k < |ls| && ls[k] == l;
      Template4LineAttached(k);
    }
  }

  lemma Template4LineAttached(k: int)
    requires 0 <= k < |Template4Lines|
    ensures CanvasModel.Attached(Template4Lines[k], Template4Shapes)
  {
    var s, ls := Template4Shapes, Template4Lines;
    if k == 0 {
      assert s[0].id == ls[k].startShapeId.value && s[1].id == ls[k].endShapeId.value;
    } else if k == 1 {
      assert s[1].id == ls[k].startShapeId.value && s[2].id == ls[k].endShapeId.value;
    } else {
      assert s[1].id == ls[k].startShapeId.value && s[3].id == ls[k].endShapeId.value;
    }
  }

  /** Loading any built-in template leaves every loaded line joining two loaded
      shapes, through fresh ids only. */
  lemma LoadBuiltinTemplate(st: CanvasModel.CanvasState, i: int, shapeIds: seq<string>, lineIds: seq<string>)
    requires 0 <= i < |InitialTemplates|
    requires |shapeIds| == |InitialTemplates[i].shapes| && |lineIds| == |InitialTemplates[i].lines|
    ensures var r := CanvasModel.LoadTemplate(st, InitialTemplates[i], shapeIds, lineIds);
      forall l :: l in r.lines ==>
        && CanvasModel.Attached(l, r.timeline.shapes)
        && l.startShapeId.value in shapeIds && l.endShapeId.value in shapeIds
  {
    if i == 0 {
      Template1SelfContained();
    } else if i == 1 {
      Template2SelfContained();
    } else if i == 2 {
      Template3SelfContained();
    } else {
      Template4SelfContained();
    }
    CanvasModel.LoadTemplateClones(st, InitialTemplates[i], shapeIds, lineIds);
  }
}
