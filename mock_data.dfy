/** The seed records of mockData.ts, with each `YYYY-MM-DD` date read as its UTC-midnight instant. */
module MockData {
  import opened Wrappers
  import opened Types

  const MockProjects: seq<Project> := [
    Project("p1", "Vinhomes Grand Park - Tòa A1", "Quận 9, TP.HCM", "Vingroup", InProgress, 65,
      1696118400000, 1724976000000,  // 2023-10-01, 2024-08-30
      "Lắp đặt hệ thống chữa cháy tự động Sprinkler và mạng lưới báo cháy cho 35 tầng.",
      "Căn hộ cao tầng"),
    Project("p2", "Trung tâm Logistics Lazada", "KCN Long Hậu, Long An", "Lazada Việt Nam", Planning, 10,
      1707955200000, 1734652800000,  // 2024-02-15, 2024-12-20
      "Thiết kế và lắp đặt hệ thống chữa cháy bằng bọt Foam cho khu vực lưu trữ hóa chất.",
      "Nhà xưởng công nghiệp"),
    Project("p3", "Bệnh viện Đa khoa Bình Dương", "Thủ Dầu Một, Bình Dương", "Bộ Y tế", Inspection, 95,
      1652140800000, 1710460800000,  // 2022-05-10, 2024-03-15
      "Thử nghiệm cuối cùng hệ thống họng nước chữa cháy và thông gió kiểm soát khói.",
      "Y tế & Bệnh viện")
  ]

  const MockLogs: seq<DailyLog> := [
    DailyLog("l1", "p1", "2024-03-20", "Nắng", 15,
      "Lắp đặt đầu báo khói tầng 12-14. Thử áp lực đường ống chính Sprinkler.",
      "Chậm giao hàng 100 đầu báo khói do vấn đề vận chuyển.", None),
    DailyLog("l2", "p1", "2024-03-21", "Mưa", 12,
      "Sơn ký hiệu đường ống PCCC. Kéo cáp tủ điều khiển trung tâm tại tầng hầm.",
      "Tiến độ ngoài trời bị chậm do mưa lớn ảnh hưởng lắp đặt trụ tiếp nước.", None)
  ]

  const MockChecklists: seq<Checklist> := [
    Checklist("c1", "p1", "Nghiệm thu nội bộ: Hệ thống báo cháy", [
      ChecklistItem("i1", "Cảm biến", "Kiểm tra trạng thái LED xanh của tất cả đầu báo khói", true, None, Some("TCVN 5738:2021")),
      ChecklistItem("i2", "Tủ điều khiển", "Xác nhận dung lượng pin dự phòng (duy trì 24h)", false, None, Some("TCVN 3890")),
      ChecklistItem("i3", "Âm thanh", "Đo cường độ âm thanh còi hú (tối thiểu 75dB)", false, None, None)
    ])
  ]
}
