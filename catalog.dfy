/**
 * The catalog that drives ingestion: the `componentList` and `utils` object literals.
 * Each property becomes an `Entry` whose `id` is the property name; declaration order is
 * the order `Object.entries` walks them. `files` maps each language to its filenames.
 * `components` is empty for the entries that declare none; `utils` is `None` for the
 * utility entries, which have no such field.
 */
module Catalog {
  import opened Wrappers
  import opened JsObject

  datatype Kind = ComponentKind | UtilKind

  datatype Entry = Entry(
    id: string,
    name: string,
    path: string,
    dependencies: seq<string>,
    components: seq<string>,
    utils: Option<seq<string>>,
    files: Object<seq<string>>)

  function Ids(entries: seq<Entry>): seq<string> {
    seq(|entries|, i requires 0 <= i < |entries| => entries[i].id)
  }

  /** Every `utils` reference of every entry is a key of `utilKeys`. */
  predicate UtilRefsResolve(entries: seq<Entry>, utilKeys: seq<string>) {
    forall i :: 0 <= i < |entries| && entries[i].utils.Some? ==>
      forall u :: u in entries[i].utils.value ==> u in utilKeys
  }

  /** Every `components` reference of every entry is a key of `componentKeys`. */
  predicate ComponentRefsResolve(entries: seq<Entry>, componentKeys: seq<string>) {
    forall i :: 0 <= i < |entries| ==>
      forall c :: c in entries[i].components ==> c in componentKeys
  }

  /** `componentList`, in declaration order. */
  const ComponentList: seq<Entry> := [
    Accordion, Alert, Avatar, BackToTop, Badge, Breadcrumb, Button, Card, Carousel,
    Checkbox, CircularProgressBar, DatePicker, Divider, Dropdown, Input, Masonry, Modal,
    Navbar, NumberCounter, Pagination, Popover, ProgressBar, Radio, Rating, Sidebar,
    Skeleton, Slider, Spinner, Stepper, Switch, Table, Tabs, Textarea, Timeline, Toast,
    ToggleButton, Tooltip, Typography, Upload
  ]

  /** `utils`, in declaration order. */
  const Utils: seq<Entry> := [Cn, Portal]

  const Accordion := Entry("accordion", "Accordion", "Accordion", ["framer-motion", "lucide-react"], [], Some(["cn"]), [
    ("javascript", ["Accordion.jsx", "AccordionContent.jsx", "AccordionItem.jsx", "AccordionHeader.jsx", "AccordionContext.jsx", "index.js"]),
    ("typescript", ["Accordion.tsx", "AccordionContent.tsx", "AccordionItem.tsx", "AccordionHeader.tsx", "AccordionContext.tsx", "index.ts"])])
  const Alert := Entry("alert", "Alert", "Alert", ["lucide-react"], [], Some(["cn"]), [
    ("javascript", ["Alert.jsx", "index.js"]),
    ("typescript", ["Alert.tsx", "index.ts"])])
  const Avatar := Entry("avatar", "Avatar", "Avatar", ["lucide-react"], [], Some(["cn"]), [
    ("javascript", ["Avatar.jsx", "AvatarBadge.jsx", "AvatarGroup.jsx", "AvatarImage.jsx", "index.js"]),
    ("typescript", ["Avatar.tsx", "AvatarBadge.tsx", "AvatarGroup.tsx", "AvatarImage.tsx", "index.ts"])])
  const BackToTop := Entry("back-to-top", "BackToTop", "BackToTop", [], [], Some(["cn"]), [
    ("javascript", ["BackToTop.jsx", "index.js"]),
    ("typescript", ["BackToTop.tsx", "index.ts"])])
  const Badge := Entry("badge", "Badge", "Badge", [], [], Some(["cn"]), [
    ("javascript", ["Badge.jsx", "index.js"]),
    ("typescript", ["Badge.tsx", "index.ts"])])
  const Breadcrumb := Entry("breadcrumb", "Breadcrumb", "Breadcrumb", ["lucide-react"], [], Some(["cn"]), [
    ("javascript", ["Breadcrumb.jsx", "BreadcrumbItem.jsx", "index.js"]),
    ("typescript", ["Breadcrumb.tsx", "BreadcrumbItem.tsx", "index.ts"])])
  const Button := Entry("button", "Button", "Button", [], [], Some(["cn"]), [
    ("javascript", ["Button.jsx", "index.js"]),
    ("typescript", ["Button.tsx", "index.ts"])])
  const Card := Entry("card", "Card", "Card", [], [], Some(["cn"]), [
    ("javascript", ["Card.jsx", "CardContent.jsx", "CardFooter.jsx", "CardHeader.jsx", "CardTitle.jsx", "CardDescription.jsx", "index.js"]),
    ("typescript", ["Card.tsx", "CardContent.tsx", "CardFooter.tsx", "CardHeader.tsx", "CardTitle.tsx", "CardDescription.tsx", "index.ts"])])
  const Carousel := Entry("carousel", "Carousel", "Carousel", ["embla-carousel-react"], [], Some(["cn"]), [
    ("javascript", ["Carousel.jsx", "CarouselArrowButtons.jsx", "Control.jsx", "Indicators.jsx", "Item.jsx", "Slides.jsx", "CarouselContext.jsx", "CarouselDotButton.jsx", "Viewport.jsx", "index.js"]),
    ("typescript", ["Carousel.tsx", "CarouselArrowButtons.tsx", "Control.tsx", "Indicators.tsx", "Item.tsx", "Slides.tsx", "CarouselContext.tsx", "CarouselDotButton.tsx", "Viewport.tsx", "index.ts"])])
  const Checkbox := Entry("checkbox", "Checkbox", "Checkbox", ["lucide-react"], [], Some(["cn"]), [
    ("javascript", ["Checkbox.jsx", "index.js"]),
    ("typescript", ["Checkbox.tsx", "index.ts"])])
  const CircularProgressBar := Entry("circular-progress-bar", "CircularProgressBar", "CircularProgressBar", [], [], Some(["cn"]), [
    ("javascript", ["CircularProgressBar.jsx", "index.js"]),
    ("typescript", ["CircularProgressBar.tsx", "index.ts"])])
  const DatePicker := Entry("date-picker", "DatePicker", "DatePicker", ["lucide-react"], ["dropdown", "popover"], Some(["cn"]), [
    ("javascript", ["DatePicker.jsx", "index.js"]),
    ("typescript", ["DatePicker.tsx", "index.ts"])])
  const Divider := Entry("divider", "Divider", "Divider", [], [], Some(["cn"]), [
    ("javascript", ["Divider.jsx", "index.js"]),
    ("typescript", ["Divider.tsx", "index.ts"])])
  const Dropdown := Entry("dropdown", "Dropdown", "Dropdown", ["lucide-react"], [], Some(["cn"]), [
    ("javascript", ["Dropdown.jsx", "DropdownAction.jsx", "DropdownContent.jsx", "DropdownItem.jsx", "DropdownList.jsx", "DropdownContext.jsx", "index.js"]),
    ("typescript", ["Dropdown.tsx", "DropdownAction.tsx", "DropdownContent.tsx", "DropdownItem.tsx", "DropdownList.tsx", "DropdownContext.tsx", "index.ts"])])
  const Input := Entry("input", "Input", "Input", ["lucide-react"], ["tooltip"], Some(["cn"]), [
    ("javascript", ["Input.jsx", "index.js"]),
    ("typescript", ["Input.tsx", "index.ts"])])
  const Masonry := Entry("masonry", "Masonry", "Masonry", [], [], Some(["cn"]), [
    ("javascript", ["Masonry.jsx", "index.js"]),
    ("typescript", ["Masonry.tsx", "index.ts"])])
  const Modal := Entry("modal", "Modal", "Modal", ["framer-motion", "react-focus-lock", "react-remove-scroll"], [], Some(["cn", "portal"]), [
    ("javascript", ["Modal.jsx", "ModalActions.jsx", "ModalContent.jsx", "ModalContext.jsx", "ModalOverlay.jsx", "ModalPortal.jsx", "index.js"]),
    ("typescript", ["Modal.tsx", "ModalActions.tsx", "ModalContent.tsx", "ModalContext.tsx", "ModalOverlay.tsx", "ModalPortal.tsx", "index.ts"])])
  const Navbar := Entry("navbar", "Navbar", "Navbar", ["framer-motion"], [], Some(["cn"]), [
    ("javascript", ["Navbar.jsx", "NavbarContainer.jsx", "NavbarList.jsx", "NavbarItem.jsx", "NavbarCollapse.jsx", "NavbarCollapseBtn.jsx", "NavbarContext.jsx", "index.js"]),
    ("typescript", ["Navbar.tsx", "NavbarContainer.tsx", "NavbarList.tsx", "NavbarItem.tsx", "NavbarCollapse.tsx", "NavbarCollapseBtn.tsx", "NavbarContext.tsx", "index.ts"])])
  const NumberCounter := Entry("number-counter", "NumberCounter", "NumberCounter", [], [], Some(["cn"]), [
    ("javascript", ["NumberCounter.jsx", "index.js"]),
    ("typescript", ["NumberCounter.tsx", "index.ts"])])
  const Pagination := Entry("pagination", "Pagination", "Pagination", [], [], Some(["cn"]), [
    ("javascript", ["Pagination.jsx", "index.js"]),
    ("typescript", ["Pagination.tsx", "index.ts"])])
  const Popover := Entry("popover", "Popover", "Popover", ["@radix-ui/react-popover"], [], Some(["cn"]), [
    ("javascript", ["Popover.jsx", "index.js"]),
    ("typescript", ["Popover.tsx", "index.ts"])])
  const ProgressBar := Entry("progressbar", "ProgressBar", "ProgressBar", ["framer-motion"], [], Some(["cn"]), [
    ("javascript", ["ProgressBar.jsx", "index.js"]),
    ("typescript", ["ProgressBar.tsx", "index.ts"])])
  const Radio := Entry("radio", "Radio", "Radio", [], [], Some(["cn"]), [
    ("javascript", ["Radio.jsx", "index.js"]),
    ("typescript", ["Radio.tsx", "index.ts"])])
  const Rating := Entry("rating", "Rating", "Rating", [], [], Some(["cn"]), [
    ("javascript", ["Rating.jsx", "index.js"]),
    ("typescript", ["Rating.tsx", "index.ts"])])
  const Sidebar := Entry("sidebar", "Sidebar", "Sidebar", ["framer-motion", "lucide-react"], [], Some(["cn"]), [
    ("javascript", ["Sidebar.jsx", "SidebarHeader.jsx", "SidebarItem.jsx", "SidebarContainer.jsx", "SidebarFooter.jsx", "SidebarContext.jsx", "SidebarToggleButton.jsx", "index.js"]),
    ("typescript", ["Sidebar.tsx", "SidebarHeader.tsx", "SidebarItem.tsx", "SidebarContainer.tsx", "SidebarFooter.tsx", "SidebarContext.tsx", "SidebarToggleButton.tsx", "index.ts"])])
  const Skeleton := Entry("skeleton", "Skeleton", "Skeleton", [], [], Some(["cn"]), [
    ("javascript", ["Skeleton.jsx", "index.js"]),
    ("typescript", ["Skeleton.tsx", "index.ts"])])
  const Slider := Entry("slider", "Slider", "Slider", [], [], Some(["cn"]), [
    ("javascript", ["Slider.jsx", "index.js"]),
    ("typescript", ["Slider.tsx", "index.ts"])])
  const Spinner := Entry("spinner", "Spinner", "Spinner", [], [], Some(["cn"]), [
    ("javascript", ["Spinner.jsx", "index.js"]),
    ("typescript", ["Spinner.tsx", "index.ts"])])
  const Stepper := Entry("stepper", "Stepper", "Stepper", [], [], Some(["cn"]), [
    ("javascript", ["Stepper.jsx", "index.js"]),
    ("typescript", ["Stepper.tsx", "index.ts"])])
  const Switch := Entry("switch", "Switch", "Switch", [], [], Some(["cn"]), [
    ("javascript", ["Switch.jsx", "index.js"]),
    ("typescript", ["Switch.tsx", "index.ts"])])
  const Table := Entry("table", "Table", "Table", [], [], Some(["cn"]), [
    ("javascript", ["Table.jsx", "TableBody.jsx", "TableCaption.jsx", "TableFooter.jsx", "TableHeader.jsx", "TableHeadCell.jsx", "TableRow.jsx", "TableCell.jsx", "TableContext.jsx", "index.js"]),
    ("typescript", ["Table.tsx", "TableBody.tsx", "TableCaption.tsx", "TableFooter.tsx", "TableHeader.tsx", "TableHeadCell.tsx", "TableRow.tsx", "TableCell.tsx", "TableContext.tsx", "index.ts"])])
  const Tabs := Entry("tabs", "Tabs", "Tabs", [], [], Some(["cn"]), [
    ("javascript", ["Tabs.jsx", "TabList.jsx", "TabItem.jsx", "TabContent.jsx", "TabsContext.jsx", "index.js"]),
    ("typescript", ["Tabs.tsx", "TabList.tsx", "TabItem.tsx", "TabContent.tsx", "TabsContext.tsx", "index.ts"])])
  const Textarea := Entry("textarea", "Textarea", "Textarea", [], [], Some(["cn"]), [
    ("javascript", ["Textarea.jsx", "index.js"]),
    ("typescript", ["Textarea.tsx", "index.ts"])])
  const Timeline := Entry("timeline", "Timeline", "Timeline", [], [], Some(["cn"]), [
    ("javascript", ["Timeline.jsx", "TimelineItem.jsx", "index.js"]),
    ("typescript", ["Timeline.tsx", "TimelineItem.tsx", "index.ts"])])
  const Toast := Entry("toast", "Toast", "Toast", ["framer-motion"], [], Some(["cn"]), [
    ("javascript", ["Toast.jsx", "index.js"]),
    ("typescript", ["Toast.tsx", "index.ts"])])
  const ToggleButton := Entry("toggle-button", "ToggleButton", "ToggleButton", [], [], Some(["cn"]), [
    ("javascript", ["ToggleButton.jsx", "Toggle.jsx", "ToggleButtonGroup.jsx", "ToggleButtonGroupContext.jsx", "index.js"]),
    ("typescript", ["ToggleButton.tsx", "Toggle.tsx", "ToggleButtonGroup.tsx", "ToggleButtonGroupContext.tsx", "index.ts"])])
  const Tooltip := Entry("tooltip", "Tooltip", "Tooltip", ["@radix-ui/react-tooltip"], [], Some(["cn"]), [
    ("javascript", ["Tooltip.jsx", "index.js"]),
    ("typescript", ["Tooltip.tsx", "index.ts"])])
  const Typography := Entry("typography", "Typography", "Typography", [], [], Some(["cn"]), [
    ("javascript", ["Typography.jsx", "index.js"]),
    ("typescript", ["Typography.tsx", "index.ts"])])
  const Upload := Entry("upload", "Upload", "Upload", ["lucide-react"], [], Some(["cn"]), [
    ("javascript", ["Upload.jsx", "index.js"]),
    ("typescript", ["Upload.tsx", "index.ts"])])
  const Cn := Entry("cn", "cn", "utils", ["clsx", "tailwind-merge"], [], None, [
    ("javascript", ["cn.js"]),
    ("typescript", ["cn.ts"])])
  const Portal := Entry("portal", "Portal", "utils", [], [], None, [
    ("javascript", ["Portal.jsx"]),
    ("typescript", ["Portal.tsx"])])

  /** The literal catalog is closed under its references: each `utils` entry of a
      component (`cn`, `portal`) is a key of `utils`. */
  lemma CatalogUtilRefsResolve()
    ensures UtilRefsResolve(ComponentList, Ids(Utils))
    ensures UtilRefsResolve(Utils, Ids(Utils))
  {
    assert Ids(Utils) == ["cn", "portal"];
  }

  /** ... and each `components` entry (`dropdown`, `popover`, `tooltip`) is a key of
      `componentList`. */
  lemma CatalogComponentRefsResolve()
    ensures ComponentRefsResolve(ComponentList, Ids(ComponentList))
  {
    assert ComponentList[13].id == Ids(ComponentList)[13];  // "dropdown"
    assert ComponentList[20].id == Ids(ComponentList)[20];  // "popover"
    assert ComponentList[36].id == Ids(ComponentList)[36];  // "tooltip"
  }

  /** The component ids as declared, in alphabetical order, in two halves. */
  const IdsAToN: seq<string> := ["accordion", "alert", "avatar", "back-to-top", "badge", "breadcrumb", "button",
    "card", "carousel", "checkbox", "circular-progress-bar", "date-picker", "divider", "dropdown", "input",
    "masonry", "modal", "navbar", "number-counter"]
  const IdsPToU: seq<string> := ["pagination", "popover", "progressbar", "radio", "rating", "sidebar",
    "skeleton", "slider", "spinner", "stepper", "switch", "table", "tabs", "textarea", "timeline", "toast",
    "toggle-button", "tooltip", "typography", "upload"]

  lemma ComponentIdsDeclared()
    ensures Ids(ComponentList) == IdsAToN + IdsPToU
  {
  }

  lemma HalvesDistinct()
    ensures Distinct(IdsAToN) && Distinct(IdsPToU)
  {
  }

  /** The first half starts with letters up to `n`, the second with letters from `p`. */
  lemma HalvesApart()
    ensures forall i :: 0 <= i < |IdsAToN| ==> |IdsAToN[i]| > 0 && IdsAToN[i][0] <= 'n'
    ensures forall j :: 0 <= j < |IdsPToU| ==> |IdsPToU[j]| > 0 && IdsPToU[j][0] >= 'p'
  {
  }

  lemma DistinctConcat(a: seq<string>, b: seq<string>)
    requires Distinct(a) && Distinct(b)
    requires forall i, j :: 0 <= i < |a| && 0 <= j < |b| ==> a[i] != b[j]
    ensures Distinct(a + b)
  {
  }

  lemma ComponentIdsDistinct()
    ensures Distinct(Ids(ComponentList))
  {
    ComponentIdsDeclared();
    HalvesDistinct();
    HalvesApart();
    forall i, j | 0 <= i < |IdsAToN| && 0 <= j < |IdsPToU|
      ensures IdsAToN[i] != IdsPToU[j]
    {
      assert IdsAToN[i][0] != IdsPToU[j][0];
    }
    DistinctConcat(IdsAToN, IdsPToU);
  }

  lemma ComponentFilesDistinct()
    ensures forall i :: 0 <= i < |ComponentList| ==> DistinctKeys(ComponentList[i].files)
  {
  }
}
